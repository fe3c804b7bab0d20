/**
 * The concrete cases of the repository's model tests, checked against the model: the
 * area rule, the unique constraints, a malformed document, and the string forms.
 */
module ModelVectors {
  import opened Results
  import opened Validators
  import opened Decimal
  import opened Models

  /** 60 + 40 fits a 100 ha farm; 80 + 30 does not. */
  lemma AreaRuleVectors(fits: Propriedade, exceeds: Propriedade)
    requires fits == Propriedade("Fazenda 1", 100.0, 60.0, 40.0, 0, "98765432100")
    requires exceeds == Propriedade("Fazenda 2", 100.0, 80.0, 30.0, 0, "98765432100")
    ensures CleanPropriedade(fits) == Pass
    ensures CleanPropriedade(exceeds) == Fail(AreaExceedsTotal)
  {
  }

  /** A second state of the same name is refused; the first is stored under the id given. */
  lemma SecondEstadoIsRejected(nome: string)
    requires nome == "Minas Gerais"
    ensures AddEstado(EmptyDb, 0, nome) == Success(EmptyDb.(estados := map[0 := Estado(nome)]))
    ensures AddEstado(AddEstado(EmptyDb, 0, nome).value, 1, nome) == Failure(DuplicateKey)
  {
    var after := AddEstado(EmptyDb, 0, nome).value;
    assert after.estados[0] == Estado(nome);
  }

  /** A second city of the same name in the same state is refused. */
  lemma SecondCidadeIsRejected(db: Db, nome: string)
    requires db == EmptyDb.(estados := map[0 := Estado("Bahia")]) && nome == "Salvador"
    ensures AddCidade(db, 1, nome, 0).Success?
    ensures AddCidade(AddCidade(db, 1, nome, 0).value, 2, nome, 0) == Failure(DuplicateKey)
  {
    var after := AddCidade(db, 1, nome, 0).value;
    assert after.cidades[1] == Cidade(nome, 0);
  }

  /** The same crop in the same farm and harvest year is refused the second time. */
  lemma SecondCulturaIsRejected(db: Db, c: Cultura)
    requires db.tiposCultura.Keys == {4} && db.propriedades.Keys == {3} && db.culturas == map[]
    requires c == Cultura(2025, 4, 3)
    ensures AddCultura(db, 5, c).Success?
    ensures AddCultura(AddCultura(db, 5, c).value, 6, c) == Failure(DuplicateKey)
  {
    var after := AddCultura(db, 5, c).value;
    assert after.culturas[5] == c;
  }

  /** A three-digit document is neither a CPF nor a CNPJ, so saving it fails. */
  lemma ShortDocumentIsRejected(db: Db, raw: string, nome: string)
    requires raw == "123"
    ensures AddProdutor(db, raw, nome) == Failure(InvalidDocument)
  {
    OnlyDigitsKeepsDigits(raw);
  }

  /** `str(produtor)` of a new producer instance. */
  method ProdutorToStringVector() returns (s: string)
    ensures s == "Produtor CPF (12345678909)"
  {
    var p := new Produtor("12345678909", "CPF", "Produtor CPF");
    s := p.ToString();
  }

  /** `str(cidade)` of Salvador in Bahia. */
  lemma CidadeToStringVector(db: Db, c: Cidade)
    requires db.estados == map[0 := Estado("Bahia")] && c == Cidade("Salvador", 0)
    ensures CidadeToString(db, c) == "Salvador (Bahia)"
  {
  }

  /** `str(cultura)` of the 2025 maize planting on "Fazenda Cultura". */
  lemma CulturaToStringVector(db: Db, c: Cultura)
    requires db.tiposCultura == map[4 := TipoCultura("Milho")]
    requires 3 in db.propriedades && db.propriedades[3].nomePropriedade == "Fazenda Cultura"
    requires c == Cultura(2025, 4, 3)
    ensures CulturaToString(db, c) == "Milho - 2025 (Fazenda Cultura)"
  {
    YearVector();
  }

  /** `str(2025)`. */
  lemma YearVector()
    ensures IntToDecimal(2025) == "2025"
  {
    assert NatToDecimal(2) == "2";
    assert NatToDecimal(20) == "20";
    assert NatToDecimal(202) == "202";
  }
}
