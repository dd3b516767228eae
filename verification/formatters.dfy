/**
 * The Brazilian document formatters of core/utils.py: each one keeps only the
 * digits of its input and, when their count is the one the document needs,
 * rebuilds the string with the document's punctuation; otherwise it returns
 * the input unchanged.
 *
 * Each document layout is written as a mask in which '#' stands for one
 * digit. Preencher (fill a mask with digits) and Encaixa (a string fits a
 * mask) are the reference definitions the formatters are proved against.
 */
module Formatters {

  /** The digits str.isdigit accepts, restricted to ASCII. */
  predicate IsDigit(c: char) {
    '0' <= c <= '9'
  }

  predicate AllDigits(s: string) {
    forall i :: 0 <= i < |s| ==> IsDigit(s[i])
  }

  /** ''.join(filter(str.isdigit, s)) */
  function Digitos(s: string): (d: string)
    ensures |d| <= |s|
    ensures AllDigits(d)
  {
    if s == [] then []
    else (if IsDigit(s[0]) then [s[0]] else []) + Digitos(s[1..])
  }

  lemma {:induction false} DigitosAppend(a: string, b: string)
    ensures Digitos(a + b) == Digitos(a) + Digitos(b)
  {
    if a == [] {
      assert a + b == b;
    } else {
      var ab := a + b;
      assert ab != [] && ab[0] == a[0] && ab[1..] == a[1..] + b;
      var primeiro: string := if IsDigit(a[0]) then [a[0]] else [];
      DigitosAppend(a[1..], b);
      calc {
        Digitos(ab);
        primeiro + Digitos(a[1..] + b);
        primeiro + (Digitos(a[1..]) + Digitos(b));
        (primeiro + Digitos(a[1..])) + Digitos(b);
        Digitos(a) + Digitos(b);
      }
    }
  }

  lemma {:induction false} DigitosOfDigits(d: string)
    requires AllDigits(d)
    ensures Digitos(d) == d
  {
    if d != [] {
      DigitosOfDigits(d[1..]);
    }
  }

  /** A punctuation character: not a digit. */
  lemma DigitosOfPunctuation(c: char)
    requires !IsDigit(c)
    ensures Digitos([c]) == []
  {
    assert [c][1..] == [];
  }

  predicate NoDigits(p: string) {
    forall i :: 0 <= i < |p| ==> !IsDigit(p[i])
  }

  lemma {:induction false} DigitosOfNoDigits(p: string)
    requires NoDigits(p)
    ensures Digitos(p) == []
  {
    if p != [] {
      DigitosOfNoDigits(p[1..]);
    }
  }

  /** Punctuation placed between two strings adds no digits. */
  lemma DigitosAcross(a: string, p: string, b: string)
    requires NoDigits(p)
    ensures Digitos(a + p + b) == Digitos(a) + Digitos(b)
  {
    DigitosAppend(a + p, b);
    DigitosAppend(a, p);
    DigitosOfNoDigits(p);
  }

  /** Appending punctuation and then a run of digits appends exactly those digits. */
  lemma DigitosSep(a: string, p: string, b: string)
    requires NoDigits(p) && AllDigits(b)
    ensures Digitos(a + p + b) == Digitos(a) + b
  {
    DigitosAcross(a, p, b);
    DigitosOfDigits(b);
  }

  // ---------------------------------------------------------------------
  // Masks: the reference definition of each document's layout

  const Hole := '#'

  /** A mask whose literal characters are punctuation, never digits. */
  predicate IsMask(m: string) {
    forall i :: 0 <= i < |m| ==> m[i] == Hole || !IsDigit(m[i])
  }

  /** The number of digits a mask takes. */
  function Buracos(m: string): nat {
    if m == [] then 0 else (if m[0] == Hole then 1 else 0) + Buracos(m[1..])
  }

  /** The mask with its holes filled, in order, by the given digits. */
  function Preencher(m: string, d: string): (r: string)
    requires |d| == Buracos(m)
    ensures |r| == |m|
  {
    if m == [] then []
    else if m[0] == Hole then [d[0]] + Preencher(m[1..], d[1..])
    else [m[0]] + Preencher(m[1..], d)
  }

  /** s has the layout of mask m: a digit at every hole, the literal elsewhere. */
  predicate Encaixa(s: string, m: string) {
    && |s| == |m|
    && forall i :: 0 <= i < |m| ==> if m[i] == Hole then IsDigit(s[i]) else s[i] == m[i]
  }

  /** Filling a mask with digits gives a string of that layout. */
  lemma {:induction false} PreencherEncaixa(m: string, d: string)
    requires IsMask(m) && AllDigits(d) && |d| == Buracos(m)
    ensures Encaixa(Preencher(m, d), m)
  {
    if m != [] {
      var r := Preencher(m, d);
      var resto := if m[0] == Hole then d[1..] else d;
      MaskTail(m);
      PreencherEncaixa(m[1..], resto);
      assert r == [if m[0] == Hole then d[0] else m[0]] + Preencher(m[1..], resto);
      forall i | 0 <= i < |m| ensures if m[i] == Hole then IsDigit(r[i]) else r[i] == m[i] {
        if i > 0 {
          assert r[i] == Preencher(m[1..], resto)[i - 1] && m[i] == m[1..][i - 1];
        }
      }
    }
  }

  /** The digits of a filled mask are exactly the digits it was filled with. */
  lemma {:induction false} PreencherDigitos(m: string, d: string)
    requires IsMask(m) && AllDigits(d) && |d| == Buracos(m)
    ensures Digitos(Preencher(m, d)) == d
  {
    if m != [] {
      MaskTail(m);
      if m[0] == Hole {
        PreencherDigitos(m[1..], d[1..]);
        DigitosAppend([d[0]], Preencher(m[1..], d[1..]));
        assert [d[0]][1..] == [];
        assert [d[0]] + d[1..] == d;
      } else {
        PreencherDigitos(m[1..], d);
        DigitosAppend([m[0]], Preencher(m[1..], d));
        DigitosOfPunctuation(m[0]);
      }
    }
  }

  lemma MaskTail(m: string)
    requires IsMask(m) && m != []
    ensures IsMask(m[1..])
  {
    forall i | 0 <= i < |m[1..]| ensures m[1..][i] == Hole || !IsDigit(m[1..][i]) {
      assert m[1..][i] == m[i + 1];
    }
  }

  lemma EncaixaTail(s: string, m: string)
    requires Encaixa(s, m) && m != []
    ensures Encaixa(s[1..], m[1..])
  {
    forall i | 0 <= i < |m[1..]|
      ensures if m[1..][i] == Hole then IsDigit(s[1..][i]) else s[1..][i] == m[1..][i]
    {
      assert m[1..][i] == m[i + 1] && s[1..][i] == s[i + 1];
    }
  }

  /** The first character of a string of a mask's layout contributes one digit at a hole, none elsewhere. */
  lemma EncaixaHead(s: string, m: string)
    requires IsMask(m) && Encaixa(s, m) && m != []
    ensures Digitos(s) == (if m[0] == Hole then [s[0]] else []) + Digitos(s[1..])
  {
    assert s == [s[0]] + s[1..];
    DigitosAppend([s[0]], s[1..]);
    assert [s[0]][1..] == [];
  }

  /** A string of a mask's layout carries as many digits as the mask has holes. */
  lemma {:induction false} LayoutDigitCount(s: string, m: string)
    requires IsMask(m) && Encaixa(s, m)
    ensures |Digitos(s)| == Buracos(m)
  {
    if m != [] {
      EncaixaTail(s, m);
      MaskTail(m);
      LayoutDigitCount(s[1..], m[1..]);
      EncaixaHead(s, m);
    }
  }

  /** A string of a mask's layout is that mask filled with its own digits. */
  lemma {:induction false} EncaixaPreencher(s: string, m: string)
    requires IsMask(m) && Encaixa(s, m)
    ensures |Digitos(s)| == Buracos(m)
    ensures Preencher(m, Digitos(s)) == s
  {
    LayoutDigitCount(s, m);
    if m != [] {
      EncaixaTail(s, m);
      MaskTail(m);
      EncaixaPreencher(s[1..], m[1..]);
      EncaixaHead(s, m);
      var d := Digitos(s);
      var cauda := Preencher(m[1..], Digitos(s[1..]));
      assert cauda == s[1..];
      if m[0] == Hole {
        assert d == [s[0]] + Digitos(s[1..]);
        assert Preencher(m, d) == [s[0]] + cauda;
      } else {
        assert d == Digitos(s[1..]);
        assert Preencher(m, d) == [m[0]] + cauda;
      }
      assert s == [s[0]] + s[1..];
    }
  }


  /** Two strings of the same mask's layout with the same digits are equal. */
  lemma LayoutDeterminedByDigits(s: string, t: string, m: string)
    requires IsMask(m) && Encaixa(s, m) && Encaixa(t, m) && Digitos(s) == Digitos(t)
    ensures s == t
  {
    EncaixaPreencher(s, m);
    EncaixaPreencher(t, m);
  }

  const MascaraCep := "#####-###"
  const MascaraCelular := "(##) #####-####"
  const MascaraFixo := "(##) ####-####"
  const MascaraCpf := "###.###.###-##"
  const MascaraCnpj := "##.###.###/####-##"

  lemma CepMask()
    ensures IsMask(MascaraCep)
  {
  }

  lemma CelularMask()
    ensures IsMask(MascaraCelular)
  {
  }

  lemma FixoMask()
    ensures IsMask(MascaraFixo)
  {
  }

  lemma CpfMask()
    ensures IsMask(MascaraCpf)
  {
  }

  lemma CnpjMask()
    ensures IsMask(MascaraCnpj)
  {
  }

  // ---------------------------------------------------------------------
  // The source's slicing and punctuation, shown to produce each layout

  lemma CepLayout(d: string)
    requires AllDigits(d) && |d| == 8
    ensures Encaixa(d[..5] + "-" + d[5..], MascaraCep)
  {
    var r := d[..5] + "-" + d[5..];
    var m := MascaraCep;
    forall i | 0 <= i < |m| ensures if m[i] == Hole then IsDigit(r[i]) else r[i] == m[i] {
      if i < 5 { assert r[i] == d[i]; } else if i > 5 { assert r[i] == d[i - 1]; }
    }
  }

  lemma CepDigits(d: string)
    requires AllDigits(d) && |d| == 8
    ensures Digitos(d[..5] + "-" + d[5..]) == d
  {
    assert Digitos(d[..5]) == d[..5] by { DigitosOfDigits(d[..5]); }
    DigitosSep(d[..5], "-", d[5..]);
    assert d[..5] + d[5..] == d;
  }

  lemma CelularLayout(t: string)
    requires AllDigits(t) && |t| == 11
    ensures Encaixa("(" + t[..2] + ") " + t[2..7] + "-" + t[7..], MascaraCelular)
  {
    var r := "(" + t[..2] + ") " + t[2..7] + "-" + t[7..];
    var m := MascaraCelular;
    forall i | 0 <= i < |m| ensures if m[i] == Hole then IsDigit(r[i]) else r[i] == m[i] {
      if 1 <= i < 3 { assert r[i] == t[i - 1]; }
      else if 5 <= i < 10 { assert r[i] == t[i - 3]; }
      else if 11 <= i { assert r[i] == t[i - 4]; }
    }
  }

  lemma CelularDigits(t: string)
    requires AllDigits(t) && |t| == 11
    ensures Digitos("(" + t[..2] + ") " + t[2..7] + "-" + t[7..]) == t
  {
    var s1 := "(" + t[..2];
    assert Digitos(s1) == t[..2] by { DigitosSep([], "(", t[..2]); assert [] + "(" + t[..2] == s1; }
    var s2 := s1 + ") " + t[2..7];
    assert Digitos(s2) == t[..7] by { DigitosSep(s1, ") ", t[2..7]); assert t[..2] + t[2..7] == t[..7]; }
    DigitosSep(s2, "-", t[7..]);
    assert t[..7] + t[7..] == t;
  }

  lemma FixoLayout(t: string)
    requires AllDigits(t) && |t| == 10
    ensures Encaixa("(" + t[..2] + ") " + t[2..6] + "-" + t[6..], MascaraFixo)
  {
    var r := "(" + t[..2] + ") " + t[2..6] + "-" + t[6..];
    var m := MascaraFixo;
    forall i | 0 <= i < |m| ensures if m[i] == Hole then IsDigit(r[i]) else r[i] == m[i] {
      if 1 <= i < 3 { assert r[i] == t[i - 1]; }
      else if 5 <= i < 9 { assert r[i] == t[i - 3]; }
      else if 10 <= i { assert r[i] == t[i - 4]; }
    }
  }

  lemma FixoDigits(t: string)
    requires AllDigits(t) && |t| == 10
    ensures Digitos("(" + t[..2] + ") " + t[2..6] + "-" + t[6..]) == t
  {
    var s1 := "(" + t[..2];
    assert Digitos(s1) == t[..2] by { DigitosSep([], "(", t[..2]); assert [] + "(" + t[..2] == s1; }
    var s2 := s1 + ") " + t[2..6];
    assert Digitos(s2) == t[..6] by { DigitosSep(s1, ") ", t[2..6]); assert t[..2] + t[2..6] == t[..6]; }
    DigitosSep(s2, "-", t[6..]);
    assert t[..6] + t[6..] == t;
  }

  lemma CpfLayout(c: string)
    requires AllDigits(c) && |c| == 11
    ensures Encaixa(c[..3] + "." + c[3..6] + "." + c[6..9] + "-" + c[9..], MascaraCpf)
  {
    var r := c[..3] + "." + c[3..6] + "." + c[6..9] + "-" + c[9..];
    var m := MascaraCpf;
    forall i | 0 <= i < |m| ensures if m[i] == Hole then IsDigit(r[i]) else r[i] == m[i] {
      if i < 3 { assert r[i] == c[i]; }
      else if 4 <= i < 7 { assert r[i] == c[i - 1]; }
      else if 8 <= i < 11 { assert r[i] == c[i - 2]; }
      else if 12 <= i { assert r[i] == c[i - 3]; }
    }
  }

  lemma CpfDigits(c: string)
    requires AllDigits(c) && |c| == 11
    ensures Digitos(c[..3] + "." + c[3..6] + "." + c[6..9] + "-" + c[9..]) == c
  {
    assert Digitos(c[..3]) == c[..3] by { DigitosOfDigits(c[..3]); }
    var s2 := c[..3] + "." + c[3..6];
    assert Digitos(s2) == c[..6] by { DigitosSep(c[..3], ".", c[3..6]); assert c[..3] + c[3..6] == c[..6]; }
    var s3 := s2 + "." + c[6..9];
    assert Digitos(s3) == c[..9] by { DigitosSep(s2, ".", c[6..9]); assert c[..6] + c[6..9] == c[..9]; }
    DigitosSep(s3, "-", c[9..]);
    assert c[..9] + c[9..] == c;
  }

  lemma CnpjLayout(c: string)
    requires AllDigits(c) && |c| == 14
    ensures Encaixa(c[..2] + "." + c[2..5] + "." + c[5..8] + "/" + c[8..12] + "-" + c[12..], MascaraCnpj)
  {
    var r := c[..2] + "." + c[2..5] + "." + c[5..8] + "/" + c[8..12] + "-" + c[12..];
    var m := MascaraCnpj;
    forall i | 0 <= i < |m| ensures if m[i] == Hole then IsDigit(r[i]) else r[i] == m[i] {
      if i < 2 { assert r[i] == c[i]; }
      else if 3 <= i < 6 { assert r[i] == c[i - 1]; }
      else if 7 <= i < 10 { assert r[i] == c[i - 2]; }
      else if 11 <= i < 15 { assert r[i] == c[i - 3]; }
      else if 16 <= i { assert r[i] == c[i - 4]; }
    }
  }

  lemma CnpjDigits(c: string)
    requires AllDigits(c) && |c| == 14
    ensures Digitos(c[..2] + "." + c[2..5] + "." + c[5..8] + "/" + c[8..12] + "-" + c[12..]) == c
  {
    assert Digitos(c[..2]) == c[..2] by { DigitosOfDigits(c[..2]); }
    var s2 := c[..2] + "." + c[2..5];
    assert Digitos(s2) == c[..5] by { DigitosSep(c[..2], ".", c[2..5]); assert c[..2] + c[2..5] == c[..5]; }
    var s3 := s2 + "." + c[5..8];
    assert Digitos(s3) == c[..8] by { DigitosSep(s2, ".", c[5..8]); assert c[..5] + c[5..8] == c[..8]; }
    var s4 := s3 + "/" + c[8..12];
    assert Digitos(s4) == c[..12] by { DigitosSep(s3, "/", c[8..12]); assert c[..8] + c[8..12] == c[..12]; }
    DigitosSep(s4, "-", c[12..]);
    assert c[..12] + c[12..] == c;
  }

  // ---------------------------------------------------------------------
  // Hole counts, read off a sample of each layout

  lemma CepHoles()
    ensures Buracos(MascaraCep) == 8
  {
    var d := "00000000";
    CepLayout(d);
    CepDigits(d);
    LayoutDigitCount(d[..5] + "-" + d[5..], MascaraCep);
  }

  lemma CelularHoles()
    ensures Buracos(MascaraCelular) == 11
  {
    var t := "00000000000";
    CelularLayout(t);
    CelularDigits(t);
    LayoutDigitCount("(" + t[..2] + ") " + t[2..7] + "-" + t[7..], MascaraCelular);
  }

  lemma FixoHoles()
    ensures Buracos(MascaraFixo) == 10
  {
    var t := "0000000000";
    FixoLayout(t);
    FixoDigits(t);
    LayoutDigitCount("(" + t[..2] + ") " + t[2..6] + "-" + t[6..], MascaraFixo);
  }

  lemma CpfHoles()
    ensures Buracos(MascaraCpf) == 11
  {
    var c := "00000000000";
    CpfLayout(c);
    CpfDigits(c);
    LayoutDigitCount(c[..3] + "." + c[3..6] + "." + c[6..9] + "-" + c[9..], MascaraCpf);
  }

  lemma CnpjHoles()
    ensures Buracos(MascaraCnpj) == 14
  {
    var c := "00000000000000";
    CnpjLayout(c);
    CnpjDigits(c);
    LayoutDigitCount(c[..2] + "." + c[2..5] + "." + c[5..8] + "/" + c[8..12] + "-" + c[12..], MascaraCnpj);
  }

  // ---------------------------------------------------------------------
  // The formatters

  /** formatar_cep: 8 digits become DDDDD-DDD; any other input is returned as given. */
  function FormatarCep(cep: string): (r: string)
    ensures Digitos(r) == Digitos(cep)
    ensures |Digitos(cep)| == 8 ==> Encaixa(r, MascaraCep)
    ensures |Digitos(cep)| != 8 ==> r == cep
  {
    var limpo := Digitos(cep);
    if |limpo| == 8 then
      CepLayout(limpo);
      CepDigits(limpo);
      limpo[..5] + "-" + limpo[5..]
    else cep
  }

  /** formatar_telefone: 11 digits become (DD) DDDDD-DDDD, 10 digits (DD) DDDD-DDDD. */
  function FormatarTelefone(telefone: string): (r: string)
    ensures Digitos(r) == Digitos(telefone)
    ensures |Digitos(telefone)| == 11 ==> Encaixa(r, MascaraCelular)
    ensures |Digitos(telefone)| == 10 ==> Encaixa(r, MascaraFixo)
    ensures |Digitos(telefone)| != 10 && |Digitos(telefone)| != 11 ==> r == telefone
  {
    var limpo := Digitos(telefone);
    if |limpo| == 11 then
      CelularLayout(limpo);
      CelularDigits(limpo);
      "(" + limpo[..2] + ") " + limpo[2..7] + "-" + limpo[7..]
    else if |limpo| == 10 then
      FixoLayout(limpo);
      FixoDigits(limpo);
      "(" + limpo[..2] + ") " + limpo[2..6] + "-" + limpo[6..]
    else telefone
  }

  /** formatar_cpf: 11 digits become DDD.DDD.DDD-DD. */
  function FormatarCpf(cpf: string): (r: string)
    ensures Digitos(r) == Digitos(cpf)
    ensures |Digitos(cpf)| == 11 ==> Encaixa(r, MascaraCpf)
    ensures |Digitos(cpf)| != 11 ==> r == cpf
  {
    var limpo := Digitos(cpf);
    if |limpo| == 11 then
      CpfLayout(limpo);
      CpfDigits(limpo);
      limpo[..3] + "." + limpo[3..6] + "." + limpo[6..9] + "-" + limpo[9..]
    else cpf
  }

  /** formatar_cnpj: 14 digits become DD.DDD.DDD/DDDD-DD. */
  function FormatarCnpj(cnpj: string): (r: string)
    ensures Digitos(r) == Digitos(cnpj)
    ensures |Digitos(cnpj)| == 14 ==> Encaixa(r, MascaraCnpj)
    ensures |Digitos(cnpj)| != 14 ==> r == cnpj
  {
    var limpo := Digitos(cnpj);
    if |limpo| == 14 then
      CnpjLayout(limpo);
      CnpjDigits(limpo);
      limpo[..2] + "." + limpo[2..5] + "." + limpo[5..8] + "/" + limpo[8..12] + "-" + limpo[12..]
    else cnpj
  }

  // ---------------------------------------------------------------------
  // What the formatters promise

  /** The CEP layout comes out exactly when the input carries 8 digits. */
  lemma FormatarCepLayoutIff(cep: string)
    ensures Encaixa(FormatarCep(cep), MascaraCep) <==> |Digitos(cep)| == 8
  {
    var r := FormatarCep(cep);
    if Encaixa(r, MascaraCep) {
      CepMask();
      CepHoles();
      LayoutDigitCount(r, MascaraCep);
    }
  }

  /** A value already in the CEP layout is returned unchanged. */
  lemma FormatarCepFixesFormatted(cep: string)
    requires Encaixa(cep, MascaraCep)
    ensures FormatarCep(cep) == cep
  {
    CepMask();
    CepHoles();
    LayoutDigitCount(cep, MascaraCep);
    LayoutDeterminedByDigits(FormatarCep(cep), cep, MascaraCep);
  }

  lemma FormatarCepIdempotent(cep: string)
    ensures FormatarCep(FormatarCep(cep)) == FormatarCep(cep)
  {
    if |Digitos(cep)| == 8 {
      FormatarCepFixesFormatted(FormatarCep(cep));
    }
  }

  lemma FormatarTelefoneLayoutIff(telefone: string)
    ensures Encaixa(FormatarTelefone(telefone), MascaraCelular) <==> |Digitos(telefone)| == 11
    ensures Encaixa(FormatarTelefone(telefone), MascaraFixo) <==> |Digitos(telefone)| == 10
  {
    var r := FormatarTelefone(telefone);
    CelularMask();
    CelularHoles();
    FixoMask();
    FixoHoles();
    if Encaixa(r, MascaraCelular) {
      LayoutDigitCount(r, MascaraCelular);
    }
    if Encaixa(r, MascaraFixo) {
      LayoutDigitCount(r, MascaraFixo);
    }
  }

  /** A number already in either phone layout is returned unchanged. */
  lemma FormatarTelefoneFixesFormatted(telefone: string)
    requires Encaixa(telefone, MascaraCelular) || Encaixa(telefone, MascaraFixo)
    ensures FormatarTelefone(telefone) == telefone
  {
    CelularMask();
    CelularHoles();
    FixoMask();
    FixoHoles();
    if Encaixa(telefone, MascaraCelular) {
      LayoutDigitCount(telefone, MascaraCelular);
      LayoutDeterminedByDigits(FormatarTelefone(telefone), telefone, MascaraCelular);
    } else {
      LayoutDigitCount(telefone, MascaraFixo);
      LayoutDeterminedByDigits(FormatarTelefone(telefone), telefone, MascaraFixo);
    }
  }

  lemma FormatarTelefoneIdempotent(telefone: string)
    ensures FormatarTelefone(FormatarTelefone(telefone)) == FormatarTelefone(telefone)
  {
    var n := |Digitos(telefone)|;
    if n == 10 || n == 11 {
      FormatarTelefoneFixesFormatted(FormatarTelefone(telefone));
    }
  }

  lemma FormatarCpfLayoutIff(cpf: string)
    ensures Encaixa(FormatarCpf(cpf), MascaraCpf) <==> |Digitos(cpf)| == 11
  {
    var r := FormatarCpf(cpf);
    if Encaixa(r, MascaraCpf) {
      CpfMask();
      CpfHoles();
      LayoutDigitCount(r, MascaraCpf);
    }
  }

  lemma FormatarCpfFixesFormatted(cpf: string)
    requires Encaixa(cpf, MascaraCpf)
    ensures FormatarCpf(cpf) == cpf
  {
    CpfMask();
    CpfHoles();
    LayoutDigitCount(cpf, MascaraCpf);
    LayoutDeterminedByDigits(FormatarCpf(cpf), cpf, MascaraCpf);
  }

  lemma FormatarCpfIdempotent(cpf: string)
    ensures FormatarCpf(FormatarCpf(cpf)) == FormatarCpf(cpf)
  {
    if |Digitos(cpf)| == 11 {
      FormatarCpfFixesFormatted(FormatarCpf(cpf));
    }
  }

  lemma FormatarCnpjLayoutIff(cnpj: string)
    ensures Encaixa(FormatarCnpj(cnpj), MascaraCnpj) <==> |Digitos(cnpj)| == 14
  {
    var r := FormatarCnpj(cnpj);
    if Encaixa(r, MascaraCnpj) {
      CnpjMask();
      CnpjHoles();
      LayoutDigitCount(r, MascaraCnpj);
    }
  }

  lemma FormatarCnpjFixesFormatted(cnpj: string)
    requires Encaixa(cnpj, MascaraCnpj)
    ensures FormatarCnpj(cnpj) == cnpj
  {
    CnpjMask();
    CnpjHoles();
    LayoutDigitCount(cnpj, MascaraCnpj);
    LayoutDeterminedByDigits(FormatarCnpj(cnpj), cnpj, MascaraCnpj);
  }

  lemma FormatarCnpjIdempotent(cnpj: string)
    ensures FormatarCnpj(FormatarCnpj(cnpj)) == FormatarCnpj(cnpj)
  {
    if |Digitos(cnpj)| == 14 {
      FormatarCnpjFixesFormatted(FormatarCnpj(cnpj));
    }
  }

  // ---------------------------------------------------------------------
  // A digits-only input goes straight to the source's slicing

  lemma FormatarCepOfDigits(cep: string)
    requires AllDigits(cep) && |cep| == 8
    ensures FormatarCep(cep) == cep[..5] + "-" + cep[5..]
  {
    DigitosOfDigits(cep);
  }

  lemma FormatarCelularOfDigits(telefone: string)
    requires AllDigits(telefone) && |telefone| == 11
    ensures FormatarTelefone(telefone) == "(" + telefone[..2] + ") " + telefone[2..7] + "-" + telefone[7..]
  {
    DigitosOfDigits(telefone);
  }

  lemma FormatarFixoOfDigits(telefone: string)
    requires AllDigits(telefone) && |telefone| == 10
    ensures FormatarTelefone(telefone) == "(" + telefone[..2] + ") " + telefone[2..6] + "-" + telefone[6..]
  {
    DigitosOfDigits(telefone);
  }

  lemma FormatarCpfOfDigits(cpf: string)
    requires AllDigits(cpf) && |cpf| == 11
    ensures FormatarCpf(cpf) == cpf[..3] + "." + cpf[3..6] + "." + cpf[6..9] + "-" + cpf[9..]
  {
    DigitosOfDigits(cpf);
  }

  lemma FormatarCnpjOfDigits(cnpj: string)
    requires AllDigits(cnpj) && |cnpj| == 14
    ensures FormatarCnpj(cnpj) == cnpj[..2] + "." + cnpj[2..5] + "." + cnpj[5..8] + "/" + cnpj[8..12] + "-" + cnpj[12..]
  {
    DigitosOfDigits(cnpj);
  }

  // ---------------------------------------------------------------------
  // Each formatter, on the right number of digits, is its mask filled with those digits

  /** A string of a mask's layout with the digits d is the mask filled with d. */
  lemma PreenchidoPelosDigitos(s: string, m: string, d: string)
    requires IsMask(m) && AllDigits(d) && |d| == Buracos(m)
    requires Encaixa(s, m) && Digitos(s) == d
    ensures s == Preencher(m, d)
  {
    PreencherEncaixa(m, d);
    PreencherDigitos(m, d);
    LayoutDeterminedByDigits(s, Preencher(m, d), m);
  }

  lemma FormatarCepMascara(cep: string)
    requires |Digitos(cep)| == 8
    ensures Buracos(MascaraCep) == |Digitos(cep)| && FormatarCep(cep) == Preencher(MascaraCep, Digitos(cep))
  {
    CepMask();
    CepHoles();
    PreenchidoPelosDigitos(FormatarCep(cep), MascaraCep, Digitos(cep));
  }

  lemma FormatarTelefoneMascara(telefone: string)
    ensures |Digitos(telefone)| == 11 ==>
              Buracos(MascaraCelular) == 11 && FormatarTelefone(telefone) == Preencher(MascaraCelular, Digitos(telefone))
    ensures |Digitos(telefone)| == 10 ==>
              Buracos(MascaraFixo) == 10 && FormatarTelefone(telefone) == Preencher(MascaraFixo, Digitos(telefone))
  {
    if |Digitos(telefone)| == 11 {
      CelularMask();
      CelularHoles();
      PreenchidoPelosDigitos(FormatarTelefone(telefone), MascaraCelular, Digitos(telefone));
    } else if |Digitos(telefone)| == 10 {
      FixoMask();
      FixoHoles();
      PreenchidoPelosDigitos(FormatarTelefone(telefone), MascaraFixo, Digitos(telefone));
    }
  }

  lemma FormatarCpfMascara(cpf: string)
    requires |Digitos(cpf)| == 11
    ensures Buracos(MascaraCpf) == |Digitos(cpf)| && FormatarCpf(cpf) == Preencher(MascaraCpf, Digitos(cpf))
  {
    CpfMask();
    CpfHoles();
    PreenchidoPelosDigitos(FormatarCpf(cpf), MascaraCpf, Digitos(cpf));
  }

  lemma FormatarCnpjMascara(cnpj: string)
    requires |Digitos(cnpj)| == 14
    ensures Buracos(MascaraCnpj) == |Digitos(cnpj)| && FormatarCnpj(cnpj) == Preencher(MascaraCnpj, Digitos(cnpj))
  {
    CnpjMask();
    CnpjHoles();
    PreenchidoPelosDigitos(FormatarCnpj(cnpj), MascaraCnpj, Digitos(cnpj));
  }

  // ---------------------------------------------------------------------
  // The examples the repository's own test case asserts

  lemma FormatarCepExample(cep: string)
    requires cep == "12345678"
    ensures FormatarCep(cep) == "12345-678"
  {
    CepExampleInput(cep);
    FormatarCepOfDigits(cep);
    CepExampleSlicing(cep);
  }

  lemma CepExampleInput(cep: string)
    requires cep == "12345678"
    ensures AllDigits(cep) && |cep| == 8
  {
  }

  lemma CepExampleSlicing(cep: string)
    requires cep == "12345678"
    ensures cep[..5] + "-" + cep[5..] == "12345-678"
  {
  }

  /** The test's second case: an already formatted CEP is left as it is. */
  lemma FormatarCepFormattedExample(cep: string)
    requires cep == "12345-678"
    ensures FormatarCep(cep) == "12345-678"
  {
    assert Encaixa(cep, MascaraCep) by {}
    FormatarCepFixesFormatted(cep);
  }

  lemma FormatarCelularExample(telefone: string)
    requires telefone == "11987654321"
    ensures FormatarTelefone(telefone) == "(11) 98765-4321"
  {
    CelularExampleInput(telefone);
    FormatarCelularOfDigits(telefone);
    CelularExampleSlicing(telefone);
  }

  lemma CelularExampleInput(telefone: string)
    requires telefone == "11987654321"
    ensures AllDigits(telefone) && |telefone| == 11
  {
  }

  lemma CelularExampleSlicing(telefone: string)
    requires telefone == "11987654321"
    ensures "(" + telefone[..2] + ") " + telefone[2..7] + "-" + telefone[7..] == "(11) 98765-4321"
  {
  }

  lemma FormatarFixoExample(telefone: string)
    requires telefone == "1140041000"
    ensures FormatarTelefone(telefone) == "(11) 4004-1000"
  {
    FixoExampleInput(telefone);
    FormatarFixoOfDigits(telefone);
    FixoExampleSlicing(telefone);
  }

  lemma FixoExampleInput(telefone: string)
    requires telefone == "1140041000"
    ensures AllDigits(telefone) && |telefone| == 10
  {
  }

  lemma FixoExampleSlicing(telefone: string)
    requires telefone == "1140041000"
    ensures "(" + telefone[..2] + ") " + telefone[2..6] + "-" + telefone[6..] == "(11) 4004-1000"
  {
  }

  lemma FormatarCpfExample(cpf: string)
    requires cpf == "12345678901"
    ensures FormatarCpf(cpf) == "123.456.789-01"
  {
    CpfExampleInput(cpf);
    FormatarCpfOfDigits(cpf);
    CpfExampleSlicing(cpf);
  }

  lemma CpfExampleInput(cpf: string)
    requires cpf == "12345678901"
    ensures AllDigits(cpf) && |cpf| == 11
  {
  }

  lemma CpfExampleSlicing(cpf: string)
    requires cpf == "12345678901"
    ensures cpf[..3] + "." + cpf[3..6] + "." + cpf[6..9] + "-" + cpf[9..] == "123.456.789-01"
  {
  }

  lemma FormatarCnpjExample(cnpj: string)
    requires cnpj == "12345678901234"
    ensures FormatarCnpj(cnpj) == "12.345.678/9012-34"
  {
    CnpjExampleInput(cnpj);
    FormatarCnpjOfDigits(cnpj);
    CnpjExampleSlicing(cnpj);
  }

  lemma CnpjExampleInput(cnpj: string)
    requires cnpj == "12345678901234"
    ensures AllDigits(cnpj) && |cnpj| == 14
  {
  }

  lemma CnpjExampleSlicing(cnpj: string)
    requires cnpj == "12345678901234"
    ensures cnpj[..2] + "." + cnpj[2..5] + "." + cnpj[5..8] + "/" + cnpj[8..12] + "-" + cnpj[12..] == "12.345.678/9012-34"
  {
  }
}
