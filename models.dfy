/**
 * The registry's entities and their store: producers identified by CPF or CNPJ, states,
 * cities, crop types, farms (Propriedade) and plantings (Cultura).
 *
 * The database is an in-memory snapshot `Db` of six tables. `Consistent` is the invariant
 * the schema and the model validation keep: every foreign key resolves, every unique and
 * unique-together constraint holds, every stored producer carries a valid digit-only
 * document and the type derived from it, and every farm respects the area rule. Inserts are
 * partial functions on `Db` that fail with the error the source raises; deletes drop the row
 * and cascade along every `on_delete=CASCADE` edge. The class `Registry` holds the six tables
 * as fields and updates them in place; the class `Produtor` is a model instance whose
 * `Clean` rewrites its own fields.
 */
module Models {
  import opened Results
  import opened Validators
  import opened Decimal

  /** Surrogate keys (BigAutoField). */
  type Id = nat

  datatype Estado = Estado(nomeEstado: string)

  datatype Cidade = Cidade(nomeCidade: string, estado: Id)

  datatype TipoCultura = TipoCultura(tipoCultura: string)

  /** A stored producer row; its primary key is `cpfCnpj`. */
  datatype ProdutorRow = ProdutorRow(cpfCnpj: string, tipoDocumento: string, nomeProdutor: string)

  /** Areas are modelled as exact reals. */
  datatype Propriedade = Propriedade(
    nomePropriedade: string,
    areaTotal: real,
    areaAgricultavel: real,
    areaVegetacao: real,
    cidade: Id,
    produtor: string)

  datatype Cultura = Cultura(anoSafra: int, tipoCultura: Id, propriedade: Id)

  /** A snapshot of the six tables. */
  datatype Db = Db(
    estados: map<Id, Estado>,
    cidades: map<Id, Cidade>,
    tiposCultura: map<Id, TipoCultura>,
    produtores: map<string, ProdutorRow>,
    propriedades: map<Id, Propriedade>,
    culturas: map<Id, Cultura>)

  const EmptyDb: Db := Db(map[], map[], map[], map[], map[], map[])

  /** The exceptions the model layer raises. */
  datatype ModelError =
    | InvalidCpf        // 11 digits with a wrong check digit
    | InvalidCnpj       // 14 digits with a wrong check digit
    | InvalidDocument   // any other digit count
    | AreaExceedsTotal  // Propriedade.clean
    | DuplicateKey      // primary key, unique or unique-together violation
    | MissingReference  // a foreign key that names no row

  // ---------------------------------------------------------------------------
  // Model validation
  // ---------------------------------------------------------------------------

  /**
   * What `Produtor.clean` decides about a raw document: the type it derives, or the error it
   * raises. Stated on the raw (possibly masked) input.
   */
  function CheckDocument(raw: string): (r: Result<DocumentType, ModelError>)
    ensures r == Success(CPF) <==> IsValidCpf(raw)
    ensures r == Success(CNPJ) <==> CnpjRule(OnlyDigits(raw))
    ensures r == Failure(InvalidCpf) <==> GetDocumentType(raw) == Some(CPF) && !IsValidCpf(raw)
    ensures r == Failure(InvalidCnpj) <==> GetDocumentType(raw) == Some(CNPJ) && !CnpjRule(OnlyDigits(raw))
    ensures r == Failure(InvalidDocument) <==> GetDocumentType(raw) == None
  {
    var s := OnlyDigits(raw);
    MaskIsIrrelevant(raw);
    OnlyDigitsKeepsDigits(s);
    ValidDocumentsClassify(raw);
    match GetDocumentType(s)
    case Some(CPF) => if IsValidCpf(s) then Success(CPF) else Failure(InvalidCpf)
    case Some(CNPJ) => if CnpjRule(s) then Success(CNPJ) else Failure(InvalidCnpj)
    case None => Failure(InvalidDocument)
  }

  /** `Propriedade.clean`: the two partial areas may add up to the total, not exceed it. */
  function CleanPropriedade(p: Propriedade): (r: Outcome<ModelError>)
    ensures r.Pass? <==> p.areaAgricultavel + p.areaVegetacao <= p.areaTotal
    ensures r.Fail? ==> r.error == AreaExceedsTotal
  {
    if p.areaAgricultavel + p.areaVegetacao > p.areaTotal then Fail(AreaExceedsTotal) else Pass
  }

  // ---------------------------------------------------------------------------
  // The store invariant
  // ---------------------------------------------------------------------------

  /** Every foreign key names an existing row. */
  predicate References(db: Db) {
    (forall k :: k in db.cidades ==> db.cidades[k].estado in db.estados)
    && (forall k :: k in db.propriedades ==>
          db.propriedades[k].cidade in db.cidades && db.propriedades[k].produtor in db.produtores)
    && (forall k :: k in db.culturas ==>
          db.culturas[k].tipoCultura in db.tiposCultura && db.culturas[k].propriedade in db.propriedades)
  }

  /** `nome_estado` and `tipo_cultura` are unique; (cidade, estado) and (ano, tipo, propriedade) are unique together. */
  predicate Unique(db: Db) {
    (forall a, b :: a in db.estados && b in db.estados && db.estados[a] == db.estados[b] ==> a == b)
    && (forall a, b :: a in db.cidades && b in db.cidades && db.cidades[a] == db.cidades[b] ==> a == b)
    && (forall a, b :: a in db.tiposCultura && b in db.tiposCultura && db.tiposCultura[a] == db.tiposCultura[b] ==> a == b)
    && (forall a, b :: a in db.culturas && b in db.culturas && db.culturas[a] == db.culturas[b] ==> a == b)
  }

  /** A stored producer: digit-only key equal to its document, which is valid, and the type derived from it. */
  predicate ValidProdutorRow(key: string, row: ProdutorRow) {
    row.cpfCnpj == key && AllDigits(key) && CheckDocument(key).Success?
    && row.tipoDocumento == Tag(CheckDocument(key).value)
  }

  predicate ProdutoresValid(db: Db) {
    forall c :: c in db.produtores ==> ValidProdutorRow(c, db.produtores[c])
  }

  predicate AreasValid(db: Db) {
    forall k :: k in db.propriedades ==> CleanPropriedade(db.propriedades[k]).Pass?
  }

  predicate Consistent(db: Db) {
    References(db) && Unique(db) && ProdutoresValid(db) && AreasValid(db)
  }

  /** `a` keeps a subset of `b`'s rows, each unchanged. */
  predicate SubDb(a: Db, b: Db) {
    (forall k :: k in a.estados ==> k in b.estados && b.estados[k] == a.estados[k])
    && (forall k :: k in a.cidades ==> k in b.cidades && b.cidades[k] == a.cidades[k])
    && (forall k :: k in a.tiposCultura ==> k in b.tiposCultura && b.tiposCultura[k] == a.tiposCultura[k])
    && (forall k :: k in a.produtores ==> k in b.produtores && b.produtores[k] == a.produtores[k])
    && (forall k :: k in a.propriedades ==> k in b.propriedades && b.propriedades[k] == a.propriedades[k])
    && (forall k :: k in a.culturas ==> k in b.culturas && b.culturas[k] == a.culturas[k])
  }

  /** Every surrogate key in use is below `n`, so `n` is fresh for every table. */
  predicate IdsBelow(db: Db, n: Id) {
    (forall k :: k in db.estados ==> k < n)
    && (forall k :: k in db.cidades ==> k < n)
    && (forall k :: k in db.tiposCultura ==> k < n)
    && (forall k :: k in db.propriedades ==> k < n)
    && (forall k :: k in db.culturas ==> k < n)
  }

  lemma SubDbKeepsIdsBelow(a: Db, b: Db, n: Id)
    requires SubDb(a, b) && IdsBelow(b, n)
    ensures IdsBelow(a, n)
  {
  }

  /** Using the fresh id `n` for one new row leaves `n + 1` fresh. */
  lemma FreshInsertKeepsIdsBelow(db: Db, after: Db, n: Id)
    requires IdsBelow(db, n)
    requires after.estados.Keys <= db.estados.Keys + {n} && after.cidades.Keys <= db.cidades.Keys + {n}
    requires after.tiposCultura.Keys <= db.tiposCultura.Keys + {n}
    requires after.propriedades.Keys <= db.propriedades.Keys + {n} && after.culturas.Keys <= db.culturas.Keys + {n}
    ensures IdsBelow(after, n + 1)
  {
  }

  /** Dropping rows never breaks a uniqueness constraint, a stored document or an area rule. */
  lemma SubDbKeepsRowInvariants(a: Db, b: Db)
    requires SubDb(a, b) && Unique(b) && ProdutoresValid(b) && AreasValid(b)
    ensures Unique(a) && ProdutoresValid(a) && AreasValid(a)
  {
    forall c | c in a.produtores
      ensures ValidProdutorRow(c, a.produtores[c])
    {
      assert b.produtores[c] == a.produtores[c];
    }
  }

  // ---------------------------------------------------------------------------
  // Inserts
  // ---------------------------------------------------------------------------

  /** A rejected insert leaves the store as it was. */
  function Applied(db: Db, r: Result<Db, ModelError>): Db {
    if r.Success? then r.value else db
  }

  function AddEstado(db: Db, id: Id, nome: string): Result<Db, ModelError> {
    if Estado(nome) in db.estados.Values then Failure(DuplicateKey)
    else Success(db.(estados := db.estados[id := Estado(nome)]))
  }

  function AddCidade(db: Db, id: Id, nome: string, estado: Id): Result<Db, ModelError> {
    if estado !in db.estados then Failure(MissingReference)
    else if Cidade(nome, estado) in db.cidades.Values then Failure(DuplicateKey)
    else Success(db.(cidades := db.cidades[id := Cidade(nome, estado)]))
  }

  function AddTipoCultura(db: Db, id: Id, nome: string): Result<Db, ModelError> {
    if TipoCultura(nome) in db.tiposCultura.Values then Failure(DuplicateKey)
    else Success(db.(tiposCultura := db.tiposCultura[id := TipoCultura(nome)]))
  }

  /** `Produtor.save`: clean (which strips the mask and derives the type), reject a taken key, insert. */
  function AddProdutor(db: Db, raw: string, nome: string): Result<Db, ModelError> {
    match CheckDocument(raw)
    case Failure(e) => Failure(e)
    case Success(t) =>
      var key := OnlyDigits(raw);
      if key in db.produtores then Failure(DuplicateKey)
      else Success(db.(produtores := db.produtores[key := ProdutorRow(key, Tag(t), nome)]))
  }

  /** Validate-then-insert for a farm: the area rule first, then its two foreign keys. */
  function AddPropriedade(db: Db, id: Id, p: Propriedade): Result<Db, ModelError> {
    if CleanPropriedade(p).Fail? then Failure(AreaExceedsTotal)
    else if p.cidade !in db.cidades || p.produtor !in db.produtores then Failure(MissingReference)
    else Success(db.(propriedades := db.propriedades[id := p]))
  }

  function AddCultura(db: Db, id: Id, c: Cultura): Result<Db, ModelError> {
    if c.tipoCultura !in db.tiposCultura || c.propriedade !in db.propriedades then Failure(MissingReference)
    else if c in db.culturas.Values then Failure(DuplicateKey)
    else Success(db.(culturas := db.culturas[id := c]))
  }

  /** The invariants on tables an operation does not touch carry over unchanged. */
  lemma ProdutoresFrame(a: Db, b: Db)
    requires a.produtores == b.produtores && ProdutoresValid(b)
    ensures ProdutoresValid(a)
  {
  }

  lemma UniqueFrame(a: Db, b: Db)
    requires a.estados == b.estados && a.cidades == b.cidades
    requires a.tiposCultura == b.tiposCultura && a.culturas == b.culturas
    requires Unique(b)
    ensures Unique(a)
  {
  }

  lemma AreasFrame(a: Db, b: Db)
    requires a.propriedades == b.propriedades && AreasValid(b)
    ensures AreasValid(a)
  {
  }

  /** Inserting under a fresh key keeps every existing row. */
  lemma InsertEstadoGrows(db: Db, id: Id, e: Estado)
    requires id !in db.estados
    ensures SubDb(db, db.(estados := db.estados[id := e]))
  {
  }

  lemma InsertCidadeGrows(db: Db, id: Id, c: Cidade)
    requires id !in db.cidades
    ensures SubDb(db, db.(cidades := db.cidades[id := c]))
  {
  }

  lemma InsertTipoCulturaGrows(db: Db, id: Id, t: TipoCultura)
    requires id !in db.tiposCultura
    ensures SubDb(db, db.(tiposCultura := db.tiposCultura[id := t]))
  {
  }

  lemma InsertProdutorGrows(db: Db, key: string, row: ProdutorRow)
    requires key !in db.produtores
    ensures SubDb(db, db.(produtores := db.produtores[key := row]))
  {
  }

  lemma InsertPropriedadeGrows(db: Db, id: Id, p: Propriedade)
    requires id !in db.propriedades
    ensures SubDb(db, db.(propriedades := db.propriedades[id := p]))
  {
  }

  lemma InsertCulturaGrows(db: Db, id: Id, c: Cultura)
    requires id !in db.culturas
    ensures SubDb(db, db.(culturas := db.culturas[id := c]))
  {
  }

  /** A state is rejected iff its name is taken. */
  lemma AddEstadoOutcome(db: Db, id: Id, nome: string)
    ensures AddEstado(db, id, nome).Failure? <==>
              exists k :: k in db.estados && db.estados[k].nomeEstado == nome
  {
    if exists k :: k in db.estados && db.estados[k].nomeEstado == nome {
      var k :| k in db.estados && db.estados[k].nomeEstado == nome;
      assert db.estados[k] == Estado(nome);
    }
  }

  /** An accepted state keeps the store consistent and removes nothing. */
  lemma AddEstadoKeepsConsistent(db: Db, id: Id, nome: string)
    requires Consistent(db) && id !in db.estados && AddEstado(db, id, nome).Success?
    ensures Consistent(AddEstado(db, id, nome).value) && SubDb(db, AddEstado(db, id, nome).value)
  {
    var after := db.(estados := db.estados[id := Estado(nome)]);
    InsertEstadoGrows(db, id, Estado(nome));
    ProdutoresFrame(after, db);
    AreasFrame(after, db);
    assert References(after);
    assert Unique(after);
  }

  /** A city is rejected iff its state is missing or the pair (name, state) is taken. */
  lemma AddCidadeOutcome(db: Db, id: Id, nome: string, estado: Id)
    ensures AddCidade(db, id, nome, estado) == Failure(MissingReference) <==> estado !in db.estados
    ensures AddCidade(db, id, nome, estado) == Failure(DuplicateKey) <==>
              estado in db.estados &&
              exists k :: k in db.cidades && db.cidades[k].nomeCidade == nome && db.cidades[k].estado == estado
  {
    if exists k :: k in db.cidades && db.cidades[k].nomeCidade == nome && db.cidades[k].estado == estado {
      var k :| k in db.cidades && db.cidades[k].nomeCidade == nome && db.cidades[k].estado == estado;
      assert db.cidades[k] == Cidade(nome, estado);
    }
  }

  lemma AddCidadeKeepsConsistent(db: Db, id: Id, nome: string, estado: Id)
    requires Consistent(db) && id !in db.cidades && AddCidade(db, id, nome, estado).Success?
    ensures Consistent(AddCidade(db, id, nome, estado).value)
    ensures SubDb(db, AddCidade(db, id, nome, estado).value)
  {
    var after := db.(cidades := db.cidades[id := Cidade(nome, estado)]);
    InsertCidadeGrows(db, id, Cidade(nome, estado));
    ProdutoresFrame(after, db);
    AreasFrame(after, db);
    assert References(after);
    assert Unique(after);
  }

  /** A crop type is rejected iff its name is taken. */
  lemma AddTipoCulturaOutcome(db: Db, id: Id, nome: string)
    ensures AddTipoCultura(db, id, nome).Failure? <==>
              exists k :: k in db.tiposCultura && db.tiposCultura[k].tipoCultura == nome
  {
    if exists k :: k in db.tiposCultura && db.tiposCultura[k].tipoCultura == nome {
      var k :| k in db.tiposCultura && db.tiposCultura[k].tipoCultura == nome;
      assert db.tiposCultura[k] == TipoCultura(nome);
    }
  }

  lemma AddTipoCulturaKeepsConsistent(db: Db, id: Id, nome: string)
    requires Consistent(db) && id !in db.tiposCultura && AddTipoCultura(db, id, nome).Success?
    ensures Consistent(AddTipoCultura(db, id, nome).value)
    ensures SubDb(db, AddTipoCultura(db, id, nome).value)
  {
    var after := db.(tiposCultura := db.tiposCultura[id := TipoCultura(nome)]);
    InsertTipoCulturaGrows(db, id, TipoCultura(nome));
    ProdutoresFrame(after, db);
    AreasFrame(after, db);
    assert References(after);
    assert Unique(after);
  }

  /**
   * `save` always cleans first: a producer is stored iff its document is a valid CPF or CNPJ
   * (masked or not) whose digits are not already a key; a failed clean reports its own error.
   */
  lemma AddProdutorOutcome(db: Db, raw: string, nome: string)
    ensures AddProdutor(db, raw, nome).Success? <==>
              (IsValidCpf(raw) || CnpjRule(OnlyDigits(raw))) && OnlyDigits(raw) !in db.produtores
    ensures CheckDocument(raw).Failure? ==> AddProdutor(db, raw, nome) == Failure(CheckDocument(raw).error)
    ensures CheckDocument(raw).Success? && OnlyDigits(raw) in db.produtores ==>
              AddProdutor(db, raw, nome) == Failure(DuplicateKey)
  {
  }

  /** The stored row is keyed by the digit-only document and carries the type derived from it. */
  lemma AddProdutorStoresCleanRow(db: Db, raw: string, nome: string)
    requires AddProdutor(db, raw, nome).Success?
    ensures var after := AddProdutor(db, raw, nome).value;
      after.produtores.Keys == db.produtores.Keys + {OnlyDigits(raw)}
      && after.produtores[OnlyDigits(raw)] == ProdutorRow(OnlyDigits(raw), Tag(GetDocumentType(raw).value), nome)
      && ValidProdutorRow(OnlyDigits(raw), after.produtores[OnlyDigits(raw)])
  {
    var key := OnlyDigits(raw);
    ValidDocumentsClassify(raw);
    OnlyDigitsIdempotent(raw);
    MaskIsIrrelevant(raw);
    assert CheckDocument(key) == CheckDocument(raw);
  }

  lemma InsertProdutorKeepsValid(db: Db, key: string, row: ProdutorRow)
    requires ProdutoresValid(db) && ValidProdutorRow(key, row)
    ensures ProdutoresValid(db.(produtores := db.produtores[key := row]))
  {
    var after := db.(produtores := db.produtores[key := row]);
    forall c | c in after.produtores
      ensures ValidProdutorRow(c, after.produtores[c])
    {
      if c != key {
        assert after.produtores[c] == db.produtores[c];
      }
    }
  }

  lemma InsertProdutorKeepsReferences(db: Db, key: string, row: ProdutorRow)
    requires References(db)
    ensures References(db.(produtores := db.produtores[key := row]))
  {
  }

  lemma AddProdutorKeepsConsistent(db: Db, raw: string, nome: string)
    requires Consistent(db) && AddProdutor(db, raw, nome).Success?
    ensures Consistent(AddProdutor(db, raw, nome).value) && SubDb(db, AddProdutor(db, raw, nome).value)
  {
    var key := OnlyDigits(raw);
    var row := ProdutorRow(key, Tag(CheckDocument(raw).value), nome);
    var after := db.(produtores := db.produtores[key := row]);
    AddProdutorStoresCleanRow(db, raw, nome);
    InsertProdutorKeepsValid(db, key, row);
    InsertProdutorKeepsReferences(db, key, row);
    InsertProdutorGrows(db, key, row);
    UniqueFrame(after, db);
    AreasFrame(after, db);
  }

  /** A farm is stored iff its areas pass `clean` and both of its owners exist. */
  lemma AddPropriedadeOutcome(db: Db, id: Id, p: Propriedade)
    ensures AddPropriedade(db, id, p).Success? <==>
              p.areaAgricultavel + p.areaVegetacao <= p.areaTotal
              && p.cidade in db.cidades && p.produtor in db.produtores
    ensures p.areaAgricultavel + p.areaVegetacao > p.areaTotal ==>
              AddPropriedade(db, id, p) == Failure(AreaExceedsTotal)
  {
  }

  lemma InsertPropriedadeKeepsReferences(db: Db, id: Id, p: Propriedade)
    requires References(db) && p.cidade in db.cidades && p.produtor in db.produtores
    ensures References(db.(propriedades := db.propriedades[id := p]))
  {
  }

  lemma InsertPropriedadeKeepsAreas(db: Db, id: Id, p: Propriedade)
    requires AreasValid(db) && CleanPropriedade(p).Pass?
    ensures AreasValid(db.(propriedades := db.propriedades[id := p]))
  {
  }

  lemma AddPropriedadeKeepsConsistent(db: Db, id: Id, p: Propriedade)
    requires Consistent(db) && id !in db.propriedades && AddPropriedade(db, id, p).Success?
    ensures Consistent(AddPropriedade(db, id, p).value) && SubDb(db, AddPropriedade(db, id, p).value)
  {
    var after := db.(propriedades := db.propriedades[id := p]);
    assert AddPropriedade(db, id, p).value == after;
    InsertPropriedadeKeepsReferences(db, id, p);
    InsertPropriedadeKeepsAreas(db, id, p);
    InsertPropriedadeGrows(db, id, p);
    ProdutoresFrame(after, db);
    UniqueFrame(after, db);
  }

  /** A planting is rejected iff a reference is missing or the triple (ano, tipo, propriedade) is taken. */
  lemma AddCulturaOutcome(db: Db, id: Id, c: Cultura)
    ensures AddCultura(db, id, c) == Failure(MissingReference) <==>
              c.tipoCultura !in db.tiposCultura || c.propriedade !in db.propriedades
    ensures AddCultura(db, id, c) == Failure(DuplicateKey) <==>
              c.tipoCultura in db.tiposCultura && c.propriedade in db.propriedades &&
              exists k :: k in db.culturas && db.culturas[k].anoSafra == c.anoSafra
                && db.culturas[k].tipoCultura == c.tipoCultura && db.culturas[k].propriedade == c.propriedade
  {
    if exists k :: k in db.culturas && db.culturas[k].anoSafra == c.anoSafra
         && db.culturas[k].tipoCultura == c.tipoCultura && db.culturas[k].propriedade == c.propriedade {
      var k :| k in db.culturas && db.culturas[k].anoSafra == c.anoSafra
         && db.culturas[k].tipoCultura == c.tipoCultura && db.culturas[k].propriedade == c.propriedade;
      assert db.culturas[k] == c;
    }
  }

  lemma InsertCulturaKeepsReferences(db: Db, id: Id, c: Cultura)
    requires References(db) && c.tipoCultura in db.tiposCultura && c.propriedade in db.propriedades
    ensures References(db.(culturas := db.culturas[id := c]))
  {
  }

  lemma InsertCulturaKeepsUnique(db: Db, id: Id, c: Cultura)
    requires Unique(db) && id !in db.culturas && c !in db.culturas.Values
    ensures Unique(db.(culturas := db.culturas[id := c]))
  {
  }

  lemma AddCulturaKeepsConsistent(db: Db, id: Id, c: Cultura)
    requires Consistent(db) && id !in db.culturas && AddCultura(db, id, c).Success?
    ensures Consistent(AddCultura(db, id, c).value) && SubDb(db, AddCultura(db, id, c).value)
  {
    var after := db.(culturas := db.culturas[id := c]);
    assert AddCultura(db, id, c).value == after;
    InsertCulturaKeepsReferences(db, id, c);
    InsertCulturaKeepsUnique(db, id, c);
    InsertCulturaGrows(db, id, c);
    ProdutoresFrame(after, db);
    AreasFrame(after, db);
  }

  // ---------------------------------------------------------------------------
  // Cascading deletes
  // ---------------------------------------------------------------------------

  /** Drops every row whose foreign key no longer resolves, parents before children. */
  function Prune(db: Db): Db {
    var cidades := map k | k in db.cidades && db.cidades[k].estado in db.estados :: db.cidades[k];
    var propriedades := map k | k in db.propriedades && db.propriedades[k].cidade in cidades
                                && db.propriedades[k].produtor in db.produtores :: db.propriedades[k];
    var culturas := map k | k in db.culturas && db.culturas[k].tipoCultura in db.tiposCultura
                            && db.culturas[k].propriedade in propriedades :: db.culturas[k];
    db.(cidades := cidades, propriedades := propriedades, culturas := culturas)
  }

  function WithoutEstado(db: Db, id: Id): Db { Prune(db.(estados := db.estados - {id})) }
  function WithoutCidade(db: Db, id: Id): Db { Prune(db.(cidades := db.cidades - {id})) }
  function WithoutTipoCultura(db: Db, id: Id): Db { Prune(db.(tiposCultura := db.tiposCultura - {id})) }
  function WithoutProdutor(db: Db, key: string): Db { Prune(db.(produtores := db.produtores - {key})) }
  function WithoutPropriedade(db: Db, id: Id): Db { Prune(db.(propriedades := db.propriedades - {id})) }
  function WithoutCultura(db: Db, id: Id): Db { Prune(db.(culturas := db.culturas - {id})) }

  /** After pruning every foreign key resolves, and only whole rows were dropped. */
  lemma PruneLeavesNoOrphans(db: Db)
    ensures References(Prune(db)) && SubDb(Prune(db), db)
  {
  }

  lemma SubDbTransitive(a: Db, b: Db, c: Db)
    requires SubDb(a, b) && SubDb(b, c)
    ensures SubDb(a, c)
  {
  }

  /** Removing any rows from a consistent store and pruning the orphans gives a consistent store. */
  lemma RemovalKeepsConsistent(db: Db, d: Db)
    requires Consistent(db) && SubDb(d, db)
    ensures Consistent(Prune(d)) && SubDb(Prune(d), db)
  {
    SubDbKeepsRowInvariants(d, db);
    PruneLeavesNoOrphans(d);
    SubDbKeepsRowInvariants(Prune(d), d);
    SubDbTransitive(Prune(d), d, db);
  }

  /** When every foreign key resolves there are no orphans, so pruning changes nothing. */
  lemma PruneWithoutOrphans(db: Db)
    requires References(db)
    ensures Prune(db) == db
  {
    var r := Prune(db);
    assert r.cidades == db.cidades;
    assert r.propriedades == db.propriedades;
    assert r.culturas == db.culturas;
  }

  /** The state a farm lies in. */
  function EstadoOf(db: Db, p: Propriedade): Id
    requires p.cidade in db.cidades
  {
    db.cidades[p.cidade].estado
  }

  /**
   * Deleting a state removes its cities, the farms in them and those farms' plantings, and
   * nothing else.
   */
  lemma WithoutEstadoCascades(db: Db, id: Id)
    requires References(db)
    ensures var r := WithoutEstado(db, id);
      SubDb(r, db)
      && r.estados.Keys == db.estados.Keys - {id}
      && r.tiposCultura == db.tiposCultura && r.produtores == db.produtores
      && (forall k :: k in r.cidades <==> k in db.cidades && db.cidades[k].estado != id)
      && (forall k :: k in r.propriedades <==>
            k in db.propriedades && EstadoOf(db, db.propriedades[k]) != id)
      && (forall k :: k in r.culturas <==>
            k in db.culturas && EstadoOf(db, db.propriedades[db.culturas[k].propriedade]) != id)
  {
  }

  /** Deleting a city removes its farms and their plantings, and nothing else. */
  lemma WithoutCidadeCascades(db: Db, id: Id)
    requires References(db)
    ensures var r := WithoutCidade(db, id);
      SubDb(r, db)
      && r.cidades.Keys == db.cidades.Keys - {id}
      && r.estados == db.estados && r.tiposCultura == db.tiposCultura && r.produtores == db.produtores
      && (forall k :: k in r.propriedades <==> k in db.propriedades && db.propriedades[k].cidade != id)
      && (forall k :: k in r.culturas <==>
            k in db.culturas && db.propriedades[db.culturas[k].propriedade].cidade != id)
  {
    assert WithoutCidade(db, id).cidades == db.cidades - {id};
  }

  /** Deleting a crop type removes its plantings, and nothing else. */
  lemma WithoutTipoCulturaCascades(db: Db, id: Id)
    requires References(db)
    ensures var r := WithoutTipoCultura(db, id);
      SubDb(r, db)
      && r.tiposCultura.Keys == db.tiposCultura.Keys - {id}
      && r.estados == db.estados && r.cidades == db.cidades
      && r.produtores == db.produtores && r.propriedades == db.propriedades
      && (forall k :: k in r.culturas <==> k in db.culturas && db.culturas[k].tipoCultura != id)
  {
    var r := WithoutTipoCultura(db, id);
    assert r.cidades == db.cidades;
    assert r.propriedades == db.propriedades;
  }

  /** Deleting a producer removes its farms and their plantings, and nothing else. */
  lemma WithoutProdutorCascades(db: Db, key: string)
    requires References(db)
    ensures var r := WithoutProdutor(db, key);
      SubDb(r, db)
      && r.produtores.Keys == db.produtores.Keys - {key}
      && r.estados == db.estados && r.cidades == db.cidades && r.tiposCultura == db.tiposCultura
      && (forall k :: k in r.propriedades <==> k in db.propriedades && db.propriedades[k].produtor != key)
      && (forall k :: k in r.culturas <==>
            k in db.culturas && db.propriedades[db.culturas[k].propriedade].produtor != key)
  {
    assert WithoutProdutor(db, key).cidades == db.cidades;
  }

  /** Deleting a farm removes its plantings, and nothing else. */
  lemma WithoutPropriedadeCascades(db: Db, id: Id)
    requires References(db)
    ensures var r := WithoutPropriedade(db, id);
      SubDb(r, db)
      && r.propriedades.Keys == db.propriedades.Keys - {id}
      && r.estados == db.estados && r.cidades == db.cidades
      && r.tiposCultura == db.tiposCultura && r.produtores == db.produtores
      && (forall k :: k in r.culturas <==> k in db.culturas && db.culturas[k].propriedade != id)
  {
    var r := WithoutPropriedade(db, id);
    assert r.cidades == db.cidades;
    assert r.propriedades == db.propriedades - {id};
  }

  /** Deleting a planting removes that row only. */
  lemma WithoutCulturaRemovesOnlyIt(db: Db, id: Id)
    requires References(db)
    ensures WithoutCultura(db, id) == db.(culturas := db.culturas - {id})
  {
    var d := db.(culturas := db.culturas - {id});
    assert References(d);
    PruneWithoutOrphans(d);
  }

  // ---------------------------------------------------------------------------
  // String forms (`__str__`)
  // ---------------------------------------------------------------------------

  /** `head (inner)`: the shape of the Produtor, Cidade and Cultura string forms. */
  function Parenthesised(head: string, inner: string): (s: string)
    ensures |s| == |head| + |inner| + 3
    ensures s[..|head|] == head && s[|head|..|head| + 2] == " ("
    ensures s[|head| + 2..|s| - 1] == inner && s[|s| - 1] == ')'
  {
    head + " (" + inner + ")"
  }

  /** `Cidade.__str__`: the city's name and, in parentheses, its state's name. */
  function CidadeToString(db: Db, c: Cidade): (s: string)
    requires c.estado in db.estados
    ensures |s| == |c.nomeCidade| + |db.estados[c.estado].nomeEstado| + 3
    ensures var n := |c.nomeCidade|;
      s[..n] == c.nomeCidade && s[n..n + 2] == " ("
      && s[n + 2..|s| - 1] == db.estados[c.estado].nomeEstado && s[|s| - 1] == ')'
  {
    Parenthesised(c.nomeCidade, db.estados[c.estado].nomeEstado)
  }

  /** `Cultura.__str__`: crop type, " - ", harvest year, then the farm's name in parentheses. */
  function CulturaToString(db: Db, c: Cultura): (s: string)
    requires c.tipoCultura in db.tiposCultura && c.propriedade in db.propriedades
    ensures var t := db.tiposCultura[c.tipoCultura].tipoCultura;
            var y := IntToDecimal(c.anoSafra);
      |s| == |t| + 3 + |y| + 2 + |db.propriedades[c.propriedade].nomePropriedade| + 1
      && s[..|t|] == t && s[|t|..|t| + 3] == " - " && s[|t| + 3..|t| + 3 + |y|] == y
      && s[|t| + 3 + |y|..|t| + 3 + |y| + 2] == " ("
      && s[|t| + 3 + |y| + 2..|s| - 1] == db.propriedades[c.propriedade].nomePropriedade
      && s[|s| - 1] == ')'
  {
    var t := db.tiposCultura[c.tipoCultura].tipoCultura;
    var y := IntToDecimal(c.anoSafra);
    var head := t + " - " + y;
    assert head[..|t|] == t && head[|t|..|t| + 3] == " - " && head[|t| + 3..] == y;
    Parenthesised(head, db.propriedades[c.propriedade].nomePropriedade)
  }

  /** The year printed in a planting's string form reads back as its `ano_safra`. */
  lemma CulturaToStringShowsYear(db: Db, c: Cultura)
    requires c.tipoCultura in db.tiposCultura && c.propriedade in db.propriedades
    ensures var t := |db.tiposCultura[c.tipoCultura].tipoCultura|;
            var y := CulturaToString(db, c)[t + 3..t + 3 + |IntToDecimal(c.anoSafra)|];
      |y| >= 1 && (y[0] == '-' ==> AllDigits(y[1..])) && (y[0] != '-' ==> AllDigits(y))
      && ParseInt(y) == c.anoSafra
  {
    IntToDecimalRoundTrip(c.anoSafra);
  }

  // ---------------------------------------------------------------------------
  // Model instances and the store
  // ---------------------------------------------------------------------------

  /** A Produtor instance before it is saved; `Clean` rewrites its fields in place. */
  class Produtor {
    var cpfCnpj: string
    var tipoDocumento: string
    var nomeProdutor: string

    constructor (cpfCnpj: string, tipoDocumento: string, nomeProdutor: string)
      ensures this.cpfCnpj == cpfCnpj && this.tipoDocumento == tipoDocumento
      ensures this.nomeProdutor == nomeProdutor
    {
      this.cpfCnpj := cpfCnpj;
      this.tipoDocumento := tipoDocumento;
      this.nomeProdutor := nomeProdutor;
    }

    /**
     * `Produtor.clean`: the mask is stripped in place whatever the outcome; on success the
     * caller's `tipoDocumento` is replaced by the derived type, on failure it is left alone.
     */
    method Clean() returns (r: Outcome<ModelError>)
      modifies this
      ensures cpfCnpj == OnlyDigits(old(cpfCnpj)) && AllDigits(cpfCnpj)
      ensures nomeProdutor == old(nomeProdutor)
      ensures CheckDocument(old(cpfCnpj)).Success? ==>
                r == Pass && tipoDocumento == Tag(CheckDocument(old(cpfCnpj)).value)
                && tipoDocumento == Tag(GetDocumentType(old(cpfCnpj)).value)
      ensures CheckDocument(old(cpfCnpj)).Failure? ==>
                r == Fail(CheckDocument(old(cpfCnpj)).error) && tipoDocumento == old(tipoDocumento)
    {
      MaskIsIrrelevant(cpfCnpj);
      ValidDocumentsClassify(cpfCnpj);
      cpfCnpj := OnlyDigits(cpfCnpj);
      OnlyDigitsKeepsDigits(cpfCnpj);
      var tipo := GetDocumentType(cpfCnpj);
      match tipo {
        case Some(CPF) =>
          if !IsValidCpf(cpfCnpj) {
            return Fail(InvalidCpf);
          }
        case Some(CNPJ) =>
          var ok := IsValidCnpj(cpfCnpj);
          if !ok {
            return Fail(InvalidCnpj);
          }
        case None =>
          return Fail(InvalidDocument);
      }
      tipoDocumento := Tag(tipo.value);
      return Pass;
    }

    /** `Produtor.__str__`: the name and, in parentheses, the document as currently held. */
    function ToString(): (s: string)
      reads this
      ensures |s| == |nomeProdutor| + |cpfCnpj| + 3
      ensures s[..|nomeProdutor|] == nomeProdutor && s[|nomeProdutor|..|nomeProdutor| + 2] == " ("
      ensures s[|nomeProdutor| + 2..|s| - 1] == cpfCnpj && s[|s| - 1] == ')'
    {
      Parenthesised(nomeProdutor, cpfCnpj)
    }
  }

  /** A consistent store whose ids were all handed out by a counter now at `n`. */
  ghost predicate Inv(db: Db, n: Id) {
    Consistent(db) && IdsBelow(db, n)
  }

  // A registry hands each insert the counter's value and moves the counter past it, so
  // every write it makes keeps the store consistent and every id below the counter.

  lemma CreateEstadoKeepsInv(db: Db, n: Id, nome: string)
    requires Inv(db, n) && AddEstado(db, n, nome).Success?
    ensures Inv(AddEstado(db, n, nome).value, n + 1)
  {
    AddEstadoKeepsConsistent(db, n, nome);
    FreshInsertKeepsIdsBelow(db, AddEstado(db, n, nome).value, n);
  }

  lemma CreateCidadeKeepsInv(db: Db, n: Id, nome: string, estado: Id)
    requires Inv(db, n) && AddCidade(db, n, nome, estado).Success?
    ensures Inv(AddCidade(db, n, nome, estado).value, n + 1)
  {
    AddCidadeKeepsConsistent(db, n, nome, estado);
    FreshInsertKeepsIdsBelow(db, AddCidade(db, n, nome, estado).value, n);
  }

  lemma CreateTipoCulturaKeepsInv(db: Db, n: Id, nome: string)
    requires Inv(db, n) && AddTipoCultura(db, n, nome).Success?
    ensures Inv(AddTipoCultura(db, n, nome).value, n + 1)
  {
    AddTipoCulturaKeepsConsistent(db, n, nome);
    FreshInsertKeepsIdsBelow(db, AddTipoCultura(db, n, nome).value, n);
  }

  lemma SaveProdutorKeepsInv(db: Db, n: Id, raw: string, nome: string)
    requires Inv(db, n) && AddProdutor(db, raw, nome).Success?
    ensures Inv(AddProdutor(db, raw, nome).value, n)
  {
    AddProdutorKeepsConsistent(db, raw, nome);
  }

  lemma SavePropriedadeKeepsInv(db: Db, n: Id, p: Propriedade)
    requires Inv(db, n) && AddPropriedade(db, n, p).Success?
    ensures Inv(AddPropriedade(db, n, p).value, n + 1)
  {
    AddPropriedadeKeepsConsistent(db, n, p);
    FreshInsertKeepsIdsBelow(db, AddPropriedade(db, n, p).value, n);
  }

  lemma CreateCulturaKeepsInv(db: Db, n: Id, c: Cultura)
    requires Inv(db, n) && AddCultura(db, n, c).Success?
    ensures Inv(AddCultura(db, n, c).value, n + 1)
  {
    AddCulturaKeepsConsistent(db, n, c);
    FreshInsertKeepsIdsBelow(db, AddCultura(db, n, c).value, n);
  }

  /** Every delete of a registry removes one row and prunes; the counter does not move. */
  lemma DeleteKeepsInv(db: Db, n: Id, d: Db)
    requires Inv(db, n) && SubDb(d, db)
    ensures Inv(Prune(d), n)
  {
    RemovalKeepsConsistent(db, d);
    SubDbKeepsIdsBelow(Prune(d), db, n);
  }

  /**
   * The database: six tables updated in place and a counter that hands out fresh ids.
   * Every method leaves the tables exactly as the matching store function computes them,
   * so the `...KeepsInv` lemmas above carry consistency across every call.
   */
  class Registry {
    var estados: map<Id, Estado>
    var cidades: map<Id, Cidade>
    var tiposCultura: map<Id, TipoCultura>
    var produtores: map<string, ProdutorRow>
    var propriedades: map<Id, Propriedade>
    var culturas: map<Id, Cultura>
    var nextId: Id

    function Snapshot(): Db
      reads this
    {
      Db(estados, cidades, tiposCultura, produtores, propriedades, culturas)
    }

    /** Every stored id was handed out by the counter, so the next one is fresh. */
    ghost predicate Valid()
      reads this
    {
      IdsBelow(Snapshot(), nextId)
    }

    constructor ()
      ensures Valid() && Inv(Snapshot(), nextId) && Snapshot() == EmptyDb
    {
      estados, cidades, tiposCultura := map[], map[], map[];
      produtores, propriedades, culturas := map[], map[], map[];
      nextId := 0;
    }

    /** `Estado.objects.create`. */
    method CreateEstado(nome: string) returns (r: Result<Id, ModelError>)
      requires Valid()
      modifies this
      ensures Valid()
      ensures var expected := AddEstado(old(Snapshot()), old(nextId), nome);
        Snapshot() == Applied(old(Snapshot()), expected)
        && (r.Success? <==> expected.Success?)
        && (r.Success? ==> r.value == old(nextId) && nextId == old(nextId) + 1)
        && (r.Failure? ==> r.error == expected.error && nextId == old(nextId))
    {
      if Estado(nome) in estados.Values {
        r := Failure(DuplicateKey);
      } else {
        var id := nextId;
        estados, nextId := estados[id := Estado(nome)], nextId + 1;
        r := Success(id);
      }
    }

    /** `Cidade.objects.create`. */
    method CreateCidade(nome: string, estado: Id) returns (r: Result<Id, ModelError>)
      requires Valid()
      modifies this
      ensures Valid()
      ensures var expected := AddCidade(old(Snapshot()), old(nextId), nome, estado);
        Snapshot() == Applied(old(Snapshot()), expected)
        && (r.Success? <==> expected.Success?)
        && (r.Success? ==> r.value == old(nextId) && nextId == old(nextId) + 1)
        && (r.Failure? ==> r.error == expected.error && nextId == old(nextId))
    {
      if estado !in estados {
        r := Failure(MissingReference);
      } else if Cidade(nome, estado) in cidades.Values {
        r := Failure(DuplicateKey);
      } else {
        var id := nextId;
        cidades, nextId := cidades[id := Cidade(nome, estado)], nextId + 1;
        r := Success(id);
      }
    }

    /** `TipoCultura.objects.create`. */
    method CreateTipoCultura(nome: string) returns (r: Result<Id, ModelError>)
      requires Valid()
      modifies this
      ensures Valid()
      ensures var expected := AddTipoCultura(old(Snapshot()), old(nextId), nome);
        Snapshot() == Applied(old(Snapshot()), expected)
        && (r.Success? <==> expected.Success?)
        && (r.Success? ==> r.value == old(nextId) && nextId == old(nextId) + 1)
        && (r.Failure? ==> r.error == expected.error && nextId == old(nextId))
    {
      if TipoCultura(nome) in tiposCultura.Values {
        r := Failure(DuplicateKey);
      } else {
        var id := nextId;
        tiposCultura, nextId := tiposCultura[id := TipoCultura(nome)], nextId + 1;
        r := Success(id);
      }
    }

    /**
     * `Produtor.save`: runs `Clean` on the instance (which strips its document in place),
     * refuses a key already stored, then stores the cleaned instance.
     */
    method SaveProdutor(p: Produtor) returns (r: Outcome<ModelError>)
      requires Valid()
      modifies this, p
      ensures Valid() && nextId == old(nextId)
      ensures p.cpfCnpj == OnlyDigits(old(p.cpfCnpj)) && p.nomeProdutor == old(p.nomeProdutor)
      ensures var expected := AddProdutor(old(Snapshot()), old(p.cpfCnpj), old(p.nomeProdutor));
        Snapshot() == Applied(old(Snapshot()), expected)
        && (r.Pass? <==> expected.Success?)
        && (r.Fail? ==> r.error == expected.error)
      ensures r.Pass? ==> produtores[p.cpfCnpj] == ProdutorRow(p.cpfCnpj, p.tipoDocumento, p.nomeProdutor)
      ensures CheckDocument(old(p.cpfCnpj)).Success? ==>
                p.tipoDocumento == Tag(CheckDocument(old(p.cpfCnpj)).value)
      ensures CheckDocument(old(p.cpfCnpj)).Failure? ==> p.tipoDocumento == old(p.tipoDocumento)
    {
      r := p.Clean();
      if r.Pass? {
        if p.cpfCnpj in produtores {
          r := Fail(DuplicateKey);
        } else {
          produtores := produtores[p.cpfCnpj := ProdutorRow(p.cpfCnpj, p.tipoDocumento, p.nomeProdutor)];
        }
      }
    }

    /** `Propriedade.full_clean` followed by `save`. */
    method SavePropriedade(p: Propriedade) returns (r: Result<Id, ModelError>)
      requires Valid()
      modifies this
      ensures Valid()
      ensures var expected := AddPropriedade(old(Snapshot()), old(nextId), p);
        Snapshot() == Applied(old(Snapshot()), expected)
        && (r.Success? <==> expected.Success?)
        && (r.Success? ==> r.value == old(nextId) && nextId == old(nextId) + 1)
        && (r.Failure? ==> r.error == expected.error && nextId == old(nextId))
    {
      var clean := CleanPropriedade(p);
      if clean.Fail? {
        r := Failure(clean.error);
      } else if p.cidade !in cidades || p.produtor !in produtores {
        r := Failure(MissingReference);
      } else {
        var id := nextId;
        propriedades, nextId := propriedades[id := p], nextId + 1;
        r := Success(id);
      }
    }

    /** `Cultura.objects.create`. */
    method CreateCultura(c: Cultura) returns (r: Result<Id, ModelError>)
      requires Valid()
      modifies this
      ensures Valid()
      ensures var expected := AddCultura(old(Snapshot()), old(nextId), c);
        Snapshot() == Applied(old(Snapshot()), expected)
        && (r.Success? <==> expected.Success?)
        && (r.Success? ==> r.value == old(nextId) && nextId == old(nextId) + 1)
        && (r.Failure? ==> r.error == expected.error && nextId == old(nextId))
    {
      if c.tipoCultura !in tiposCultura || c.propriedade !in propriedades {
        r := Failure(MissingReference);
      } else if c in culturas.Values {
        r := Failure(DuplicateKey);
      } else {
        var id := nextId;
        culturas, nextId := culturas[id := c], nextId + 1;
        r := Success(id);
      }
    }

    /** Removes every row left without its parent, children after parents. */
    method DropOrphans()
      modifies this
      ensures Snapshot() == Prune(old(Snapshot())) && nextId == old(nextId)
    {
      cidades := map k | k in cidades && cidades[k].estado in estados :: cidades[k];
      propriedades := map k | k in propriedades && propriedades[k].cidade in cidades
                              && propriedades[k].produtor in produtores :: propriedades[k];
      culturas := map k | k in culturas && culturas[k].tipoCultura in tiposCultura
                          && culturas[k].propriedade in propriedades :: culturas[k];
    }

    /** Deletes a state and everything that depends on it. */
    method DeleteEstado(id: Id) returns (found: bool)
      requires Valid()
      modifies this
      ensures Valid() && nextId == old(nextId) && found == (id in old(estados))
      ensures Snapshot() == WithoutEstado(old(Snapshot()), id)
    {
      ghost var db := Snapshot();
      found := id in estados;
      estados := estados - {id};
      DropOrphans();
      PruneLeavesNoOrphans(db.(estados := db.estados - {id}));
      SubDbKeepsIdsBelow(Snapshot(), db, nextId);
    }

    /** Deletes a city and everything that depends on it. */
    method DeleteCidade(id: Id) returns (found: bool)
      requires Valid()
      modifies this
      ensures Valid() && nextId == old(nextId) && found == (id in old(cidades))
      ensures Snapshot() == WithoutCidade(old(Snapshot()), id)
    {
      ghost var db := Snapshot();
      found := id in cidades;
      cidades := cidades - {id};
      DropOrphans();
      PruneLeavesNoOrphans(db.(cidades := db.cidades - {id}));
      SubDbKeepsIdsBelow(Snapshot(), db, nextId);
    }

    /** Deletes a crop type and its plantings. */
    method DeleteTipoCultura(id: Id) returns (found: bool)
      requires Valid()
      modifies this
      ensures Valid() && nextId == old(nextId) && found == (id in old(tiposCultura))
      ensures Snapshot() == WithoutTipoCultura(old(Snapshot()), id)
    {
      ghost var db := Snapshot();
      found := id in tiposCultura;
      tiposCultura := tiposCultura - {id};
      DropOrphans();
      PruneLeavesNoOrphans(db.(tiposCultura := db.tiposCultura - {id}));
      SubDbKeepsIdsBelow(Snapshot(), db, nextId);
    }

    /** Deletes a producer, its farms and their plantings. */
    method DeleteProdutor(key: string) returns (found: bool)
      requires Valid()
      modifies this
      ensures Valid() && nextId == old(nextId) && found == (key in old(produtores))
      ensures Snapshot() == WithoutProdutor(old(Snapshot()), key)
    {
      ghost var db := Snapshot();
      found := key in produtores;
      produtores := produtores - {key};
      DropOrphans();
      PruneLeavesNoOrphans(db.(produtores := db.produtores - {key}));
      SubDbKeepsIdsBelow(Snapshot(), db, nextId);
    }

    /** Deletes a farm and its plantings. */
    method DeletePropriedade(id: Id) returns (found: bool)
      requires Valid()
      modifies this
      ensures Valid() && nextId == old(nextId) && found == (id in old(propriedades))
      ensures Snapshot() == WithoutPropriedade(old(Snapshot()), id)
    {
      ghost var db := Snapshot();
      found := id in propriedades;
      propriedades := propriedades - {id};
      DropOrphans();
      PruneLeavesNoOrphans(db.(propriedades := db.propriedades - {id}));
      SubDbKeepsIdsBelow(Snapshot(), db, nextId);
    }

    /** Deletes a planting. */
    method DeleteCultura(id: Id) returns (found: bool)
      requires Valid()
      modifies this
      ensures Valid() && nextId == old(nextId) && found == (id in old(culturas))
      ensures Snapshot() == WithoutCultura(old(Snapshot()), id)
    {
      ghost var db := Snapshot();
      found := id in culturas;
      culturas := culturas - {id};
      DropOrphans();
      PruneLeavesNoOrphans(db.(culturas := db.culturas - {id}));
      SubDbKeepsIdsBelow(Snapshot(), db, nextId);
    }
  }
}
