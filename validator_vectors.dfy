/**
 * The concrete documents the repository's validator and model tests use, checked
 * against the model. Each lemma takes its document as a parameter and states the two
 * weighted sums, so that each evaluation stays small.
 */
module ValidatorVectors {
  import opened Results
  import opened Validators

  /** The validator test's CPF: sums 210 and 255 give check digits 0 and 9. */
  lemma AcceptsCpf12345678909(s: string)
    requires s == "12345678909"
    ensures IsValidCpf(s) && GetDocumentType(s) == Some(CPF)
  {
    var d := Digits(s);
    assert d == [1, 2, 3, 4, 5, 6, 7, 8, 9, 0, 9];
    assert Dot(d, CpfWeights1) == 210;
    assert Dot(d, CpfWeights2) == 255;
    assert s[1] != s[0];
    assert CpfRule(s);
    OnlyDigitsKeepsDigits(s);
    IsValidCpfMatchesRule(s);
  }

  /** The model test's CPF: sums 330 and 375 give check digits 0 and 0. */
  lemma AcceptsCpf98765432100(s: string)
    requires s == "98765432100"
    ensures IsValidCpf(s)
  {
    var d := Digits(s);
    assert d == [9, 8, 7, 6, 5, 4, 3, 2, 1, 0, 0];
    assert Dot(d, CpfWeights1) == 330;
    assert Dot(d, CpfWeights2) == 375;
    assert s[1] != s[0];
    assert CpfRule(s);
    OnlyDigitsKeepsDigits(s);
    IsValidCpfMatchesRule(s);
  }

  /** The integration test's CPF: sums 221 and 259 give check digits 0 and 5. */
  lemma AcceptsCpf39053344705(s: string)
    requires s == "39053344705"
    ensures IsValidCpf(s)
  {
    var d := Digits(s);
    assert d == [3, 9, 0, 5, 3, 3, 4, 4, 7, 0, 5];
    assert Dot(d, CpfWeights1) == 221;
    assert Dot(d, CpfWeights2) == 259;
    assert s[1] != s[0];
    assert CpfRule(s);
    OnlyDigitsKeepsDigits(s);
    IsValidCpfMatchesRule(s);
  }

  /**
   * A wrong second check digit is rejected, yet the input still classifies as a CPF:
   * classification looks at the digit count only.
   */
  lemma RejectsCpf12345678900(s: string)
    requires s == "12345678900"
    ensures !IsValidCpf(s) && GetDocumentType(s) == Some(CPF)
  {
    var d := Digits(s);
    assert d == [1, 2, 3, 4, 5, 6, 7, 8, 9, 0, 0];
    assert Dot(d, CpfWeights2) == 255;
    assert !CpfRule(s);
    OnlyDigitsKeepsDigits(s);
    IsValidCpfMatchesRule(s);
  }

  /** A repetition and a wrong length are rejected. */
  lemma RejectsRepeatedAndShortCpf(repeated: string, short: string)
    requires repeated == "11111111111" && short == "12345678"
    ensures !IsValidCpf(repeated) && !IsValidCpf(short)
    ensures GetDocumentType(short) == None
  {
    OnlyDigitsKeepsDigits(repeated);
    OnlyDigitsKeepsDigits(short);
  }

  /** The validator test's CNPJ: sums 102 and 120 give check digits 8 and 1. */
  lemma AcceptsCnpj11222333000181(s: string)
    requires s == "11222333000181"
    ensures CnpjRule(OnlyDigits(s)) && GetDocumentType(s) == Some(CNPJ)
  {
    var d := Digits(s);
    assert d == [1, 1, 2, 2, 2, 3, 3, 3, 0, 0, 0, 1, 8, 1];
    assert Dot(d, CnpjWeights1) == 102;
    assert Dot(d, CnpjWeights2) == 120;
    assert s[2] != s[0];
    assert CnpjRule(s);
    OnlyDigitsKeepsDigits(s);
  }

  /** Wrong check digits are rejected. */
  lemma RejectsCnpj11222333000100(s: string)
    requires s == "11222333000100"
    ensures !CnpjRule(OnlyDigits(s))
  {
    var d := Digits(s);
    assert d == [1, 1, 2, 2, 2, 3, 3, 3, 0, 0, 0, 1, 0, 0];
    assert Dot(d, CnpjWeights1) == 102;
    assert !CnpjRule(s);
    OnlyDigitsKeepsDigits(s);
  }

  /** A repetition is rejected whatever its check digits. */
  lemma RejectsRepeatedCnpj(repeated: string)
    requires repeated == "22222222222222"
    ensures !CnpjRule(OnlyDigits(repeated))
  {
    OnlyDigitsKeepsDigits(repeated);
    assert Repeated(repeated);
  }

  /** The mask of "123.456.789-09" vanishes: the validator test's CPF remains. */
  lemma StripsMaskedCpf(s: string)
    requires s == "123.456.789-09"
    ensures OnlyDigits(s) == "12345678909"
  {
    assert s[8..] == s[8..11] + [s[11]] + s[12..];
    OnlyDigitsKeepsDigits(s[8..11]);
    OnlyDigitsKeepsDigits(s[12..]);
    OnlyDigitsDropsSeparator(s[8..11], s[11], s[12..]);
    assert s[4..] == s[4..7] + [s[7]] + s[8..];
    OnlyDigitsKeepsDigits(s[4..7]);
    OnlyDigitsDropsSeparator(s[4..7], s[7], s[8..]);
    assert s == s[..3] + [s[3]] + s[4..];
    OnlyDigitsKeepsDigits(s[..3]);
    OnlyDigitsDropsSeparator(s[..3], s[3], s[4..]);
  }

  /** The masked CPF "123.456.789-09" is accepted and classifies as CPF. */
  lemma AcceptsMaskedCpf(s: string)
    requires s == "123.456.789-09"
    ensures IsValidCpf(s) && GetDocumentType(s) == Some(CPF)
  {
    StripsMaskedCpf(s);
    MaskIsIrrelevant(s);
    AcceptsCpf12345678909(OnlyDigits(s));
  }

  /** The mask of "11.222.333/0001-81" vanishes: the validator test's CNPJ remains. */
  lemma StripsMaskedCnpj(s: string)
    requires s == "11.222.333/0001-81"
    ensures OnlyDigits(s) == "11222333000181"
  {
    StripsCnpjTail(s[7..]);
    assert s[3..] == s[3..6] + [s[6]] + s[7..];
    OnlyDigitsKeepsDigits(s[3..6]);
    OnlyDigitsDropsSeparator(s[3..6], s[6], s[7..]);
    assert s == s[..2] + [s[2]] + s[3..];
    OnlyDigitsKeepsDigits(s[..2]);
    OnlyDigitsDropsSeparator(s[..2], s[2], s[3..]);
  }

  /** The tail "333/0001-81" of the masked CNPJ strips to "333000181". */
  lemma StripsCnpjTail(t: string)
    requires t == "333/0001-81"
    ensures OnlyDigits(t) == "333000181"
  {
    assert t[4..] == t[4..8] + [t[8]] + t[9..];
    OnlyDigitsKeepsDigits(t[4..8]);
    OnlyDigitsKeepsDigits(t[9..]);
    OnlyDigitsDropsSeparator(t[4..8], t[8], t[9..]);
    assert t == t[..3] + [t[3]] + t[4..];
    OnlyDigitsKeepsDigits(t[..3]);
    OnlyDigitsDropsSeparator(t[..3], t[3], t[4..]);
  }

  /** The masked CNPJ "11.222.333/0001-81" meets the CNPJ rule and classifies as CNPJ. */
  lemma AcceptsMaskedCnpj(s: string)
    requires s == "11.222.333/0001-81"
    ensures CnpjRule(OnlyDigits(s)) && GetDocumentType(s) == Some(CNPJ)
  {
    StripsMaskedCnpj(s);
    MaskIsIrrelevant(s);
    AcceptsCnpj11222333000181(OnlyDigits(s));
  }

  /** A wrong length is rejected and has no document type. */
  lemma RejectsShortCnpj(short: string)
    requires short == "11222333"
    ensures !CnpjRule(OnlyDigits(short)) && GetDocumentType(short) == None
  {
    OnlyDigitsKeepsDigits(short);
  }

  /** Inputs with neither 11 nor 14 digits have no document type. */
  lemma ClassifiesOthersAsNone(empty: string, letters: string)
    requires empty == "" && letters == "abc"
    ensures GetDocumentType(empty) == None && GetDocumentType(letters) == None
  {
    assert OnlyDigits(letters) == OnlyDigits(letters[1..]) == OnlyDigits(letters[2..]) == [];
  }
}
