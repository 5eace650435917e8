/** The companies page: the CPF/CNPJ display mask, the search filter, the
    registry-lookup trigger on the tax-id field and the master-only gate. */
module Empresas {
  import opened Domain
  import Seqs
  import Text

  /** The two patterns of `formatCnpjCpf`: `(\d{3})(\d{3})(\d{3})(\d{2})` and
      `(\d{2})(\d{3})(\d{3})(\d{4})(\d{2})`. */
  datatype Mask = Cpf | Cnpj

  /** The number of digits in a row a pattern matches. */
  function Width(m: Mask): nat {
    match m
    case Cpf => 11
    case Cnpj => 14
  }

  /** The replacement `$1.$2.$3-$4` (CPF) or `$1.$2.$3/$4-$5` (CNPJ) applied to
      the matched digits `g`. */
  function Punctuate(m: Mask, g: string): (r: string)
    requires |g| == Width(m)
    ensures |r| == |g| + (if m == Cpf then 3 else 4)
    ensures m == Cpf ==> r[3] == '.' && r[7] == '.' && r[11] == '-'
    ensures m == Cnpj ==> r[2] == '.' && r[6] == '.' && r[10] == '/' && r[15] == '-'
    ensures r[0] == g[0] && r[|r| - 1] == g[|g| - 1]
  {
    match m
    case Cpf => g[..3] + "." + g[3..6] + "." + g[6..9] + "-" + g[9..]
    case Cnpj => g[..2] + "." + g[2..5] + "." + g[5..8] + "/" + g[8..12] + "-" + g[12..]
  }

  predicate IsSeparator(c: char) { c == '.' || c == '/' || c == '-' }

  /** `n` digits in a row start at position `j` of `s`. */
  predicate RunAt(s: string, n: nat, j: int) {
    0 <= j && j + n <= |s| && Text.AllDigits(s[j..j + n])
  }

  /** Leftmost position at or after `from` where `n` digits in a row start:
      where an unanchored regex of `n` digits first matches. */
  function FirstDigitRun(s: string, n: nat, from: nat): (k: Option<nat>)
    decreases |s| - from
    ensures k.Some? ==> from <= k.value && RunAt(s, n, k.value)
    ensures k.Some? ==> forall j :: from <= j < k.value ==> !RunAt(s, n, j)
    ensures k.None? ==> forall j :: from <= j ==> !RunAt(s, n, j)
  {
    if from + n > |s| then None
    else if RunAt(s, n, from) then Some(from)
    else FirstDigitRun(s, n, from + 1)
  }

  /** `s.replace(pattern, replacement)` without the `g` flag: only the
      leftmost match is rewritten, the rest of `s` is kept. */
  function ReplaceFirst(s: string, m: Mask): (r: string)
    ensures FirstDigitRun(s, Width(m), 0).None? ==> r == s
    ensures FirstDigitRun(s, Width(m), 0).Some? ==>
              var i, sep := FirstDigitRun(s, Width(m), 0).value, if m == Cpf then 3 else 4;
              |r| == |s| + sep && r[..i] == s[..i] && r[i + Width(m) + sep..] == s[i + Width(m)..] &&
              r[i..i + Width(m) + sep] == Punctuate(m, s[i..i + Width(m)])
  {
    match FirstDigitRun(s, Width(m), 0)
    case None => s
    case Some(i) => s[..i] + Punctuate(m, s[i..i + Width(m)]) + s[i + Width(m)..]
  }

  /** `formatCnpjCpf`: the digits of `value`, masked as a CPF when there are at
      most 11 of them and as a CNPJ otherwise. */
  function FormatCnpjCpf(value: string): (r: string)
    ensures var n := |Text.Digits(value)|;
      |r| == n + (if n == 11 then 3 else if n >= 14 then 4 else 0)
  {
    var numbers := Text.Digits(value);
    FirstRunInDigits(numbers, if |numbers| <= 11 then 11 else 14);
    if |numbers| <= 11 then ReplaceFirst(numbers, Cpf) else ReplaceFirst(numbers, Cnpj)
  }

  // ------------------------------------------------------------- properties

  /** In a string of digits the pattern matches at position 0 or nowhere. */
  lemma FirstRunInDigits(s: string, n: nat)
    requires Text.AllDigits(s)
    ensures FirstDigitRun(s, n, 0) == if n <= |s| then Some(0) else None
  {
    if n <= |s| {
      assert Text.AllDigits(s[0..n]);
    }
  }

  lemma DigitsAround(a: string, c: char, b: string)
    requires !Text.IsDigit(c)
    ensures Text.Digits(a + [c] + b) == Text.Digits(a) + Text.Digits(b)
  {
    var ac := a + [c];
    Text.DigitsConcat(ac, b);
    Text.DigitsConcat(a, [c]);
    Text.DigitsOfNonDigits([c]);
    assert Text.Digits(ac) == Text.Digits(a);
  }

  lemma AllDigitsSlice(g: string, i: nat, j: nat)
    requires Text.AllDigits(g) && i <= j <= |g|
    ensures Text.AllDigits(g[i..j])
  {
  }

  /** Digits separated by non-digits: stripping gives the digits joined. */
  lemma Join4(a: string, b: string, c: string, d: string, s1: char, s2: char, s3: char)
    requires Text.AllDigits(a) && Text.AllDigits(b) && Text.AllDigits(c) && Text.AllDigits(d)
    requires !Text.IsDigit(s1) && !Text.IsDigit(s2) && !Text.IsDigit(s3)
    ensures Text.Digits(a + [s1] + b + [s2] + c + [s3] + d) == a + b + c + d
  {
    Text.DigitsOfDigits(a); Text.DigitsOfDigits(b); Text.DigitsOfDigits(c); Text.DigitsOfDigits(d);
    var x1 := a + [s1] + b;
    var x2 := x1 + [s2] + c;
    DigitsAround(a, s1, b);
    DigitsAround(x1, s2, c);
    DigitsAround(x2, s3, d);
  }

  lemma Join5(a: string, b: string, c: string, d: string, e: string, s1: char, s2: char, s3: char, s4: char)
    requires Text.AllDigits(a) && Text.AllDigits(b) && Text.AllDigits(c) && Text.AllDigits(d) && Text.AllDigits(e)
    requires !Text.IsDigit(s1) && !Text.IsDigit(s2) && !Text.IsDigit(s3) && !Text.IsDigit(s4)
    ensures Text.Digits(a + [s1] + b + [s2] + c + [s3] + d + [s4] + e) == a + b + c + d + e
  {
    Join4(a, b, c, d, s1, s2, s3);
    Text.DigitsOfDigits(e);
    DigitsAround(a + [s1] + b + [s2] + c + [s3] + d, s4, e);
  }

  /** The CPF mask laid out: `ddd.ddd.ddd-dd`. */
  lemma CpfLayout(g: string)
    requires |g| == 11 && Text.AllDigits(g)
    ensures Punctuate(Cpf, g) == g[..3] + ['.'] + g[3..6] + ['.'] + g[6..9] + ['-'] + g[9..]
    ensures g[..3] + g[3..6] + g[6..9] + g[9..] == g
    ensures Text.AllDigits(g[..3]) && Text.AllDigits(g[3..6]) && Text.AllDigits(g[6..9]) && Text.AllDigits(g[9..])
    ensures var r := Punctuate(Cpf, g);
      |r| == 14 && r[3] == '.' && r[7] == '.' && r[11] == '-' &&
      forall i :: 0 <= i < 14 && i != 3 && i != 7 && i != 11 ==> Text.IsDigit(r[i])
  {
  }

  /** The CNPJ mask laid out: `dd.ddd.ddd/dddd-dd`. */
  lemma CnpjLayout(g: string)
    requires |g| == 14 && Text.AllDigits(g)
    ensures Punctuate(Cnpj, g) == g[..2] + ['.'] + g[2..5] + ['.'] + g[5..8] + ['/'] + g[8..12] + ['-'] + g[12..]
    ensures g[..2] + g[2..5] + g[5..8] + g[8..12] + g[12..] == g
    ensures Text.AllDigits(g[..2]) && Text.AllDigits(g[2..5]) && Text.AllDigits(g[5..8])
      && Text.AllDigits(g[8..12]) && Text.AllDigits(g[12..])
    ensures var r := Punctuate(Cnpj, g);
      |r| == 18 && r[2] == '.' && r[6] == '.' && r[10] == '/' && r[15] == '-' &&
      forall i :: 0 <= i < 18 && i != 2 && i != 6 && i != 10 && i != 15 ==> Text.IsDigit(r[i])
  {
  }

  /** The mask only inserts separators: removing them gives the digits back. */
  lemma PunctuateKeepsDigits(m: Mask, g: string)
    requires |g| == Width(m) && Text.AllDigits(g)
    ensures Text.Digits(Punctuate(m, g)) == g
    ensures |Punctuate(m, g)| == if m == Cpf then 14 else 18
    ensures forall i :: 0 <= i < |Punctuate(m, g)| ==>
              Text.IsDigit(Punctuate(m, g)[i]) || IsSeparator(Punctuate(m, g)[i])
  {
    match m
    case Cpf => CpfKeepsDigits(g);
    case Cnpj => CnpjKeepsDigits(g);
  }

  lemma CpfKeepsDigits(g: string)
    requires |g| == 11 && Text.AllDigits(g)
    ensures var r := Punctuate(Cpf, g);
      Text.Digits(r) == g && forall i :: 0 <= i < |r| ==> Text.IsDigit(r[i]) || IsSeparator(r[i])
  {
    CpfLayout(g);
    Join4(g[..3], g[3..6], g[6..9], g[9..], '.', '.', '-');
  }

  lemma CnpjKeepsDigits(g: string)
    requires |g| == 14 && Text.AllDigits(g)
    ensures var r := Punctuate(Cnpj, g);
      Text.Digits(r) == g && forall i :: 0 <= i < |r| ==> Text.IsDigit(r[i]) || IsSeparator(r[i])
  {
    CnpjLayout(g);
    Join5(g[..2], g[2..5], g[5..8], g[8..12], g[12..], '.', '.', '/', '-');
  }

  /** On a digit string the match is at the start, when there is one. */
  lemma ReplaceInDigits(s: string, m: Mask)
    requires Text.AllDigits(s)
    ensures Width(m) <= |s| ==> ReplaceFirst(s, m) == Punctuate(m, s[..Width(m)]) + s[Width(m)..]
    ensures |s| < Width(m) ==> ReplaceFirst(s, m) == s
  {
    FirstRunInDigits(s, Width(m));
    if Width(m) <= |s| {
      assert s[0..Width(m)] == s[..Width(m)];
      assert s[..0] + Punctuate(m, s[..Width(m)]) == Punctuate(m, s[..Width(m)]);
    }
  }

  lemma AppendDigits(p: string, g: string, tail: string)
    requires Text.Digits(p) == g && Text.AllDigits(tail)
    requires forall i :: 0 <= i < |p| ==> Text.IsDigit(p[i]) || IsSeparator(p[i])
    ensures Text.Digits(p + tail) == g + tail
    ensures forall i :: 0 <= i < |p + tail| ==> Text.IsDigit((p + tail)[i]) || IsSeparator((p + tail)[i])
  {
    Text.DigitsConcat(p, tail);
    Text.DigitsOfDigits(tail);
  }

  lemma PunctuateThenTail(m: Mask, g: string, tail: string, n: string)
    requires |g| == Width(m) && Text.AllDigits(g) && Text.AllDigits(tail) && g + tail == n
    ensures var r := Punctuate(m, g) + tail;
      Text.Digits(r) == n && forall i :: 0 <= i < |r| ==> Text.IsDigit(r[i]) || IsSeparator(r[i])
  {
    PunctuateKeepsDigits(m, g);
    AppendDigits(Punctuate(m, g), g, tail);
  }

  lemma MaskedPrefixKeepsDigits(n: string, m: Mask)
    requires Text.AllDigits(n) && Width(m) <= |n|
    ensures var r := Punctuate(m, n[..Width(m)]) + n[Width(m)..];
      Text.Digits(r) == n && forall i :: 0 <= i < |r| ==> Text.IsDigit(r[i]) || IsSeparator(r[i])
  {
    var w := Width(m);
    AllDigitsSlice(n, 0, w);
    AllDigitsSlice(n, w, |n|);
    assert n[..w] + n[w..] == n;
    PunctuateThenTail(m, n[..w], n[w..], n);
  }

  /** Masking a digit string only inserts separators. */
  lemma MaskKeepsDigits(n: string, m: Mask)
    requires Text.AllDigits(n)
    ensures Text.Digits(ReplaceFirst(n, m)) == n
    ensures forall i :: 0 <= i < |ReplaceFirst(n, m)| ==>
              Text.IsDigit(ReplaceFirst(n, m)[i]) || IsSeparator(ReplaceFirst(n, m)[i])
  {
    ReplaceInDigits(n, m);
    if Width(m) <= |n| {
      MaskedPrefixKeepsDigits(n, m);
    } else {
      Text.DigitsOfDigits(n);
    }
  }

  /** The digit characters of the formatted value are those of the input, in
      order, and every other character is one of `.`, `/`, `-`. */
  lemma FormatKeepsDigits(value: string)
    ensures Text.Digits(FormatCnpjCpf(value)) == Text.Digits(value)
    ensures forall i :: 0 <= i < |FormatCnpjCpf(value)| ==>
              Text.IsDigit(FormatCnpjCpf(value)[i]) || IsSeparator(FormatCnpjCpf(value)[i])
  {
    var n := Text.Digits(value);
    MaskKeepsDigits(n, if |n| <= 11 then Cpf else Cnpj);
  }

  lemma MaskCpf(n: string)
    requires |n| == 11 && Text.AllDigits(n)
    ensures ReplaceFirst(n, Cpf) == Punctuate(Cpf, n)
  {
    assert n[..11] == n && n[11..] == [];
    ReplaceInDigits(n, Cpf);
  }

  lemma MaskCnpj(n: string)
    requires |n| == 14 && Text.AllDigits(n)
    ensures ReplaceFirst(n, Cnpj) == Punctuate(Cnpj, n)
  {
    assert n[..14] == n && n[14..] == [];
    ReplaceInDigits(n, Cnpj);
  }

  /** Exactly 11 digits give `ddd.ddd.ddd-dd`. */
  lemma FormatCpf(value: string)
    requires |Text.Digits(value)| == 11
    ensures var r := FormatCnpjCpf(value);
      |r| == 14 && r[3] == '.' && r[7] == '.' && r[11] == '-' &&
      (forall i :: 0 <= i < 14 && i != 3 && i != 7 && i != 11 ==> Text.IsDigit(r[i])) &&
      Text.Digits(r) == Text.Digits(value)
  {
    var n := Text.Digits(value);
    MaskCpf(n);
    CpfLayout(n);
    PunctuateKeepsDigits(Cpf, n);
  }

  /** Exactly 14 digits give `dd.ddd.ddd/dddd-dd`. */
  lemma FormatCnpj(value: string)
    requires |Text.Digits(value)| == 14
    ensures var r := FormatCnpjCpf(value);
      |r| == 18 && r[2] == '.' && r[6] == '.' && r[10] == '/' && r[15] == '-' &&
      (forall i :: 0 <= i < 18 && i != 2 && i != 6 && i != 10 && i != 15 ==> Text.IsDigit(r[i])) &&
      Text.Digits(r) == Text.Digits(value)
  {
    var n := Text.Digits(value);
    MaskCnpj(n);
    CnpjLayout(n);
    PunctuateKeepsDigits(Cnpj, n);
  }

  /** Fewer than 11 digits, or 12 or 13, do not match either pattern: the bare
      digit string comes back. */
  lemma FormatUnmasked(value: string)
    requires |Text.Digits(value)| < 11 || 12 <= |Text.Digits(value)| <= 13
    ensures FormatCnpjCpf(value) == Text.Digits(value)
  {
    var n := Text.Digits(value);
    ReplaceInDigits(n, if |n| <= 11 then Cpf else Cnpj);
  }

  /** More than 14 digits: the first 14 are masked, the rest is appended raw. */
  lemma FormatLong(value: string)
    requires |Text.Digits(value)| > 14
    ensures var n := Text.Digits(value);
      FormatCnpjCpf(value) == Punctuate(Cnpj, n[..14]) + n[14..]
  {
    ReplaceInDigits(Text.Digits(value), Cnpj);
  }

  // ---------------------------------------------------------- the tax-id field

  /** What typing `value` into the CNPJ/CPF field does: the form keeps the
      raw text, and the registry is queried with the digits when there are
      exactly 14 of them. */
  datatype FieldChange = FieldChange(cnpj_cpf: string, lookup: Option<string>)

  function OnCnpjCpfInput(value: string): (c: FieldChange)
    ensures c.cnpj_cpf == value
    ensures c.lookup.Some? <==> |Text.Digits(value)| == 14
    ensures c.lookup.Some? ==>
              |c.lookup.value| == 14 && Text.AllDigits(c.lookup.value) && Seqs.IsSubseq(c.lookup.value, value)
  {
    var numbersOnly := Text.Digits(value);
    FieldChange(value, if |numbersOnly| == 14 then Some(numbersOnly) else None)
  }

  // ------------------------------------------------------------------ listing

  /** `filteredEmpresas`: the legal name is searched case-insensitively, the
      raw tax id case-sensitively. */
  predicate EmpresaMatches(e: Empresa, term: string) {
    Text.Matches(e.razao_social, term) || Text.Contains(e.cnpj_cpf, term)
  }

  function FilteredEmpresas(es: seq<Empresa>, term: string): (r: seq<Empresa>)
    ensures Seqs.IsSubseq(r, es)
    ensures forall e ::
              multiset(r)[e] ==
                (if Text.Matches(e.razao_social, term) || Text.Contains(e.cnpj_cpf, term) then multiset(es)[e] else 0)
  {
    Seqs.Filter(es, (e: Empresa) => EmpresaMatches(e, term))
  }

  /** Any user but a master gets the access-denied view. */
  function AccessDenied(user: Option<Usuario>): (denied: bool)
    ensures denied <==> user.None? || user.value.tipo_usuario != Master
  {
    RoleOf(user) != Some(Master)
  }
}
