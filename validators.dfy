/**
 * Brazilian taxpayer documents: CPF (11 digits, individuals) and CNPJ (14 digits,
 * organisations). Formatting is stripped, the length decides the kind, and two
 * trailing check digits are verified with the modulus-11 rule of the Receita Federal.
 * Only the ASCII digits '0'..'9' count as digits here.
 */
module Validators {
  import opened Results

  predicate IsDigit(c: char) {
    '0' <= c <= '9'
  }

  predicate AllDigits(s: string) {
    forall i :: 0 <= i < |s| ==> IsDigit(s[i])
  }

  /** Removes every non-digit character, keeping the digits in order (`re.sub(r'\D', '', s)`). */
  function OnlyDigits(s: string): (r: string)
    ensures AllDigits(r)
    ensures |r| <= |s|
  {
    if s == [] then []
    else (if IsDigit(s[0]) then [s[0]] else []) + OnlyDigits(s[1..])
  }

  /** Stripping distributes over concatenation: it looks at each character on its own. */
  lemma {:induction false} OnlyDigitsConcat(a: string, b: string)
    ensures OnlyDigits(a + b) == OnlyDigits(a) + OnlyDigits(b)
  {
    if a == [] {
      assert a + b == b;
    } else {
      var head := if IsDigit(a[0]) then [a[0]] else [];
      assert (a + b)[0] == a[0];
      assert (a + b)[1..] == a[1..] + b;
      OnlyDigitsConcat(a[1..], b);
      assert OnlyDigits(a + b) == head + (OnlyDigits(a[1..]) + OnlyDigits(b));
    }
  }

  /** One character survives stripping iff it is a digit. */
  lemma OnlyDigitsOfChar(c: char)
    ensures OnlyDigits([c]) == if IsDigit(c) then [c] else []
  {
    assert [c][1..] == [];
  }

  /** A non-digit between two parts vanishes: only the parts' digits remain. */
  lemma OnlyDigitsDropsSeparator(a: string, c: char, b: string)
    requires !IsDigit(c)
    ensures OnlyDigits(a + [c] + b) == OnlyDigits(a) + OnlyDigits(b)
  {
    OnlyDigitsConcat(a + [c], b);
    OnlyDigitsConcat(a, [c]);
    OnlyDigitsOfChar(c);
  }

  /** A string that is already digit-only is left as it is. */
  lemma {:induction false} OnlyDigitsKeepsDigits(s: string)
    requires AllDigits(s)
    ensures OnlyDigits(s) == s
  {
    if s != [] {
      OnlyDigitsKeepsDigits(s[1..]);
    }
  }

  /** Stripping twice is stripping once. */
  lemma OnlyDigitsIdempotent(s: string)
    ensures OnlyDigits(OnlyDigits(s)) == OnlyDigits(s)
  {
    OnlyDigitsKeepsDigits(OnlyDigits(s));
  }

  /** The numeric value of one digit character (`int(c)`). */
  function DigitValue(c: char): (v: int)
    requires IsDigit(c)
    ensures 0 <= v <= 9
  {
    c as int - '0' as int
  }

  /** The digit values of a digit-only string. */
  function Digits(s: string): (d: seq<int>)
    requires AllDigits(s)
    ensures |d| == |s|
    ensures forall i :: 0 <= i < |s| ==> 0 <= d[i] <= 9
  {
    seq(|s|, i requires 0 <= i < |s| => DigitValue(s[i]))
  }

  /** Every character equals the first (`s == s[0] * len(s)`), a known-invalid sentinel. */
  predicate Repeated(s: string) {
    |s| > 0 && forall i :: 0 <= i < |s| ==> s[i] == s[0]
  }

  /** Sum of `xs[k] * ws[k]` for k from i up to the end of the weight table ws. */
  function DotFrom(xs: seq<int>, ws: seq<int>, i: nat): int
    requires |ws| <= |xs| && i <= |ws|
    decreases |ws| - i
  {
    if i == |ws| then 0 else xs[i] * ws[i] + DotFrom(xs, ws, i + 1)
  }

  /** The leading digits of xs weighted by the table ws, one weight per digit. */
  function Dot(xs: seq<int>, ws: seq<int>): int
    requires |ws| <= |xs|
  {
    DotFrom(xs, ws, 0)
  }

  lemma {:induction false} DotFromAppend(xs: seq<int>, ws: seq<int>, w: int, i: nat)
    requires |ws| < |xs| && i <= |ws|
    ensures DotFrom(xs, ws + [w], i) == DotFrom(xs, ws, i) + xs[|ws|] * w
    decreases |ws| - i
  {
    if i < |ws| {
      DotFromAppend(xs, ws, w, i + 1);
    }
  }

  /** One more weight adds the product for the next digit. */
  lemma DotAppend(xs: seq<int>, ws: seq<int>, w: int)
    requires |ws| < |xs|
    ensures Dot(xs, ws + [w]) == Dot(xs, ws) + xs[|ws|] * w
  {
    DotFromAppend(xs, ws, w, 0);
  }

  /** Digits beyond the end of the weight table play no part. */
  lemma {:induction false} DotOfPrefix(xs: seq<int>, ws: seq<int>, n: nat, i: nat)
    requires |ws| <= n <= |xs| && i <= |ws|
    ensures DotFrom(xs[..n], ws, i) == DotFrom(xs, ws, i)
    decreases |ws| - i
  {
    if i < |ws| {
      DotOfPrefix(xs, ws, n, i + 1);
    }
  }

  /** The Receita Federal check digit of a weighted sum: 0 when sum mod 11 is below 2, otherwise 11 minus it. */
  function Mod11CheckDigit(sum: int): (d: int)
    ensures 0 <= d <= 9
    ensures d == 0 <==> sum % 11 < 2
    ensures d != 0 ==> (sum + d) % 11 == 0
  {
    var r := sum % 11;
    if r < 2 then 0 else 11 - r
  }

  // The official weight tables.
  const CpfWeights1: seq<int> := [10, 9, 8, 7, 6, 5, 4, 3, 2]
  const CpfWeights2: seq<int> := [11, 10, 9, 8, 7, 6, 5, 4, 3, 2]
  const CnpjWeights1: seq<int> := [5, 4, 3, 2, 9, 8, 7, 6, 5, 4, 3, 2]
  const CnpjWeights2: seq<int> := [6, 5, 4, 3, 2, 9, 8, 7, 6, 5, 4, 3, 2]

  /** A digit-only CPF that the official rule accepts: both check digits match the weight tables. */
  predicate CpfRule(s: string)
    requires AllDigits(s)
  {
    && |s| == 11
    && !Repeated(s)
    && var d := Digits(s);
    && d[9] == Mod11CheckDigit(Dot(d, CpfWeights1))
    && d[10] == Mod11CheckDigit(Dot(d, CpfWeights2))
  }

  /** A digit-only CNPJ that the official rule accepts. */
  predicate CnpjRule(s: string)
    requires AllDigits(s)
  {
    && |s| == 14
    && !Repeated(s)
    && var d := Digits(s);
    && d[12] == Mod11CheckDigit(Dot(d, CnpjWeights1))
    && d[13] == Mod11CheckDigit(Dot(d, CnpjWeights2))
  }

  // ---------------------------------------------------------------------------
  // CPF, as the source computes it

  /** `sum(d[num] * ((i+1) - num) for num in range(0, n))`. */
  function CpfPartialSum(d: seq<int>, i: int, n: nat): int
    requires n <= |d|
  {
    if n == 0 then 0 else CpfPartialSum(d, i, n - 1) + d[n - 1] * (i + 1 - (n - 1))
  }

  /** The check digit the source expects at position i: `((value * 10) % 11) % 10`. */
  function CpfCheck(d: seq<int>, i: nat): int
    requires i <= |d|
  {
    ((CpfPartialSum(d, i, i) * 10) % 11) % 10
  }

  /** The loop `for i in range(i, 11)` that returns False at the first mismatching check digit. */
  predicate CpfChecksFrom(d: seq<int>, i: nat)
    requires |d| == 11
    decreases 11 - i
  {
    i >= 11 || (CpfCheck(d, i) == d[i] && CpfChecksFrom(d, i + 1))
  }

  /** `is_valid_cpf`: 11 digits after stripping, not a repetition, both check digits right. */
  predicate IsValidCpf(cpf: string) {
    var s := OnlyDigits(cpf);
    |s| == 11 && !Repeated(s) && CpfChecksFrom(Digits(s), 9)
  }

  /** The weights `(i+1) - num` for num in 0..i-1: from i+1 down to 2. */
  function DescendingWeights(i: nat): (w: seq<int>)
    ensures |w| == i
  {
    seq(i, num requires 0 <= num < i => i + 1 - num)
  }

  lemma {:induction false} CpfPartialSumIsDot(d: seq<int>, i: nat, n: nat)
    requires n <= i <= |d|
    ensures CpfPartialSum(d, i, n) == Dot(d, DescendingWeights(i)[..n])
  {
    if n > 0 {
      var w := DescendingWeights(i);
      CpfPartialSumIsDot(d, i, n - 1);
      assert w[..n] == w[..n - 1] + [w[n - 1]];
      DotAppend(d, w[..n - 1], w[n - 1]);
    }
  }

  /** The source's CPF formula `((sum*10) % 11) % 10` is the Receita Federal rule in disguise. */
  lemma CpfFormulaIsMod11(sum: int)
    ensures ((sum * 10) % 11) % 10 == Mod11CheckDigit(sum)
  {
    var q, r := sum / 11, sum % 11;
    assert sum * 10 == 11 * (10 * q) + 10 * r;
    var k := 10 * q;
    assert (11 * k + 10 * r) % 11 == (10 * r) % 11;
  }

  /** `is_valid_cpf` accepts exactly the CPFs that the official rule accepts, after stripping. */
  lemma IsValidCpfMatchesRule(cpf: string)
    ensures IsValidCpf(cpf) <==> CpfRule(OnlyDigits(cpf))
  {
    var s := OnlyDigits(cpf);
    if |s| == 11 {
      var d := Digits(s);
      assert DescendingWeights(9) == CpfWeights1;
      assert DescendingWeights(10) == CpfWeights2;
      CpfPartialSumIsDot(d, 9, 9);
      CpfPartialSumIsDot(d, 10, 10);
      assert DescendingWeights(9)[..9] == CpfWeights1;
      assert DescendingWeights(10)[..10] == CpfWeights2;
      CpfFormulaIsMod11(CpfPartialSum(d, 9, 9));
      CpfFormulaIsMod11(CpfPartialSum(d, 10, 10));
      assert CpfChecksFrom(d, 9) <==> CpfCheck(d, 9) == d[9] && CpfCheck(d, 10) == d[10];
    }
  }

  // ---------------------------------------------------------------------------
  // CNPJ, as the source computes it

  /** The weight table the source's loop walks for a prefix of `size` digits. */
  function CnpjWeights(size: int): (w: seq<int>)
    requires size == 12 || size == 13
    ensures |w| == size
  {
    if size == 12 then CnpjWeights1 else CnpjWeights2
  }

  /**
   * One pass of the source's weighted-sum loop: the weight starts at `size - 7`,
   * drops by one per digit and wraps to 9 when it would fall below 2.
   */
  method CnpjWeightedSum(numbers: seq<int>) returns (sum: int)
    requires |numbers| == 12 || |numbers| == 13
    ensures sum == Dot(numbers, CnpjWeights(|numbers|))
  {
    var size := |numbers|;
    ghost var w := CnpjWeights(size);
    sum := 0;
    var pos := size - 7;
    for i := 0 to size
      invariant sum == Dot(numbers, w[..i])
      invariant i < size ==> pos == w[i]
    {
      assert w[..i + 1] == w[..i] + [w[i]];
      DotAppend(numbers, w[..i], w[i]);
      sum := sum + numbers[i] * pos;
      pos := pos - 1;
      if pos < 2 {
        pos := 9;
      }
    }
    assert w[..size] == w;
  }

  /** `is_valid_cnpj`: 14 digits after stripping, not a repetition, both check digits right. */
  method IsValidCnpj(cnpj: string) returns (ok: bool)
    ensures ok == CnpjRule(OnlyDigits(cnpj))
  {
    var s := OnlyDigits(cnpj);
    if |s| != 14 || Repeated(s) {
      return false;
    }
    var d := Digits(s);
    var size := 12;
    var numbers := d[..size];
    var digits := d[size..];
    var sum := CnpjWeightedSum(numbers);
    DotOfPrefix(d, CnpjWeights1, size, 0);
    var result := sum % 11;
    if digits[0] != (if result < 2 then 0 else 11 - result) {
      return false;
    }
    size := size + 1;
    numbers := d[..size];
    sum := CnpjWeightedSum(numbers);
    DotOfPrefix(d, CnpjWeights2, size, 0);
    result := sum % 11;
    if digits[1] != (if result < 2 then 0 else 11 - result) {
      return false;
    }
    return true;
  }

  // ---------------------------------------------------------------------------
  // Classification

  datatype DocumentType = CPF | CNPJ

  /** The text the source stores for a document type. */
  function Tag(t: DocumentType): string {
    match t
    case CPF => "CPF"
    case CNPJ => "CNPJ"
  }

  /** `get_document_type`: the kind follows from the digit count alone; checksums play no part. */
  function GetDocumentType(value: string): (t: Option<DocumentType>)
    ensures t == Some(CPF) <==> |OnlyDigits(value)| == 11
    ensures t == Some(CNPJ) <==> |OnlyDigits(value)| == 14
  {
    var s := OnlyDigits(value);
    if |s| == 11 then Some(CPF)
    else if |s| == 14 then Some(CNPJ)
    else None
  }

  /** A masked document and its digit-only form are judged alike by every validator. */
  lemma MaskIsIrrelevant(s: string)
    ensures IsValidCpf(s) == IsValidCpf(OnlyDigits(s))
    ensures CnpjRule(OnlyDigits(s)) == CnpjRule(OnlyDigits(OnlyDigits(s)))
    ensures GetDocumentType(s) == GetDocumentType(OnlyDigits(s))
  {
    OnlyDigitsIdempotent(s);
  }

  /** A string whose digits all repeat is rejected by both validators, whatever its checksum. */
  lemma RepeatedIsRejected(s: string)
    requires Repeated(OnlyDigits(s))
    ensures !IsValidCpf(s)
    ensures !CnpjRule(OnlyDigits(s))
  {
  }

  /** A valid document classifies as its own kind. */
  lemma ValidDocumentsClassify(s: string)
    ensures IsValidCpf(s) ==> GetDocumentType(s) == Some(CPF)
    ensures CnpjRule(OnlyDigits(s)) ==> GetDocumentType(s) == Some(CNPJ)
  {
  }
}
