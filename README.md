# agric: a verified model of the farm registry's core

`agric` is a Django REST service that registers rural producers (identified by a
Brazilian CPF or CNPJ), their farms (`Propriedade`), the cities and states the farms
lie in, crop types, and plantings (`Cultura`). It also serves a read-only dashboard.
This project models the parts of it that carry logic, and proves what they promise:

- **Document validation** (`validators.dfy`, module `Validators`):
  - `is_valid_cpf` as a recursive predicate over the source's two check positions;
  - `is_valid_cnpj` as a method that keeps the source's weight loop (the weight starts
    at `size - 7` and wraps to 9);
  - `get_document_type`.

  `is_valid_cpf` and `is_valid_cnpj` are proved equal to the official modulus-11 rule
  over the Receita Federal weight tables. All three depend on the input only through
  its stripped digits, and stripping is proved to keep exactly the digits, in order.
- **The entity store** (`models.dfy`, module `Models`):
  - `Produtor` is a class. Its `Clean` rewrites `cpfCnpj` and `tipoDocumento` in place.
  - `Registry` is a class holding the six tables as maps, plus a counter that hands out
    surrogate ids. Its methods are:
    - the inserts, which run `Produtor.clean`/`save`, `Propriedade.clean`, the `unique`
      and `unique_together` checks and the foreign-key checks;
    - the deletes, which follow every `on_delete=CASCADE` edge.
  - Each method is proved to leave the tables exactly as a pure store function
    (`AddEstado`, `WithoutProdutor`, …) computes them. Lemmas about those functions
    show that every insert and delete keeps the store consistent:
    - every foreign key resolves;
    - the uniqueness constraints hold;
    - every stored producer has a digit-only, checksum-valid key and a derived type;
    - every farm respects the area rule.
  - The `__str__` formats are functions with their layout stated.
- **Producer intake** (`serializers.dfy`, module `Serializers`):
  - `validate_cpf_cnpj` is a function.
  - `ProdutorSerializer.create` is a method that updates the validated data in place
    and saves through the registry.
- **The dashboard** (`dashboard.dfy`, module `Dashboard`):
  - `Summarize` specifies `DashboardView.get` as pure functions over a snapshot of the
    registry: counts, SQL-style `SUM` (NULL over no rows), group-by, and ordering by
    count.
  - `Get` computes it from a `Registry` without a `modifies` clause, so the endpoint
    provably changes nothing. It runs the source's renaming loop as a `while` loop.
- **Concrete cases** (`validator_vectors.dfy`, `model_vectors.dfy`): the repository's
  test documents, constraint cases and string forms, checked against the model.

`wrappers.dfy` holds `Option`, `Result` and `Outcome`. `decimal.dfy` renders an `int`
as Python's f-string does, and proves that the rendering reads back.

### Behaviour of the code worth knowing

- **Deleting a state or a city cascades.** The code declares `on_delete=CASCADE` on
  `Cidade.estado` (app/agric/models.py:90) and `Propriedade.cidade` (:125), so such a
  delete removes the dependents instead of being refused.
- **Dashboard ties are in no particular order.** The queries order by count only
  (app/agric/views.py:143,151). The model's sort puts a group ahead of the equal-count
  groups already placed, and no contract says anything about tie order.
- **Empty store.** `uso_do_solo` holds NULL sums when there are no farms, while
  `total_hectares` is 0 (`or 0` at views.py:133 only). The model keeps the difference:
  `Option<real>` versus `real`.
- **Document type.** `get_document_type`'s docstring speaks of a *valid* CPF/CNPJ, but
  the code looks at the digit count only. The model follows the code.
- **Area rule.** `Propriedade` has no `save` override, so the area rule runs only when
  `full_clean` is called (app/agric/tests/test_models.py:72). `Registry.SavePropriedade`
  models `full_clean` followed by `save` as one validate-then-insert step.

## Model

| member | source | states |
|---|---|---|
| Validators.OnlyDigits | app/agric/validators.py:32 | the stripped document holds only the characters '0'..'9' and is never longer than the input |
| Validators.OnlyDigitsOfChar | app/agric/validators.py:32 | a single character survives stripping iff it is a digit; with `OnlyDigitsConcat` this fixes the result as the input's digits in order |
| Validators.OnlyDigitsDropsSeparator | app/agric/validators.py:32 | a non-digit between two parts is removed, and the parts' digits are kept in order |
| Validators.OnlyDigitsConcat | app/agric/validators.py:32 | stripping a concatenation strips each part and joins the results in order |
| Validators.OnlyDigitsKeepsDigits | app/agric/validators.py:32 | a document that is already digit-only passes through stripping unchanged |
| Validators.OnlyDigitsIdempotent | app/agric/validators.py:32 | stripping twice is the same as stripping once |
| Validators.Mod11CheckDigit | app/agric/validators.py:71-73 | the check digit is a single digit; it is 0 exactly when the sum mod 11 is below 2, and otherwise it completes the sum to a multiple of 11 |
| Validators.CpfPartialSumIsDot | app/agric/validators.py:36 | the generator sum at position i is the weighted sum of the first i digits with weights i+1 down to 2 |
| Validators.CpfFormulaIsMod11 | app/agric/validators.py:37 | the CPF formula `((sum*10) % 11) % 10` agrees with the modulus-11 check-digit rule for every sum |
| Validators.IsValidCpfMatchesRule | app/agric/validators.py:17-40 | `is_valid_cpf` accepts a string iff it strips to 11 digits, not all equal, whose two check digits match the official weights 10..2 and 11..2 |
| Validators.IsValidCpf | app/agric/validators.py:17-40 | `is_valid_cpf` as the source computes it; it has no contract of its own: `IsValidCpfMatchesRule` proves it accepts iff the stripped document has 11 digits, not all equal, with both check digits right under the official weights |
| Validators.CpfChecksFrom | app/agric/validators.py:35-39 | the loop over positions 9 and 10 that stops at the first wrong check digit; it holds iff every remaining position carries `((sum*10) % 11) % 10`, which `CpfPartialSumIsDot` and `CpfFormulaIsMod11` tie to the modulus-11 rule |
| Validators.CnpjWeightedSum | app/agric/validators.py:64-70 | the loop whose weight starts at `size-7`, drops by one and wraps to 9 below 2 computes the weighted sum with the official table 5..2,9..2 (12 digits) or 6..2,9..2 (13 digits) |
| Validators.IsValidCnpj | app/agric/validators.py:43-86 | `is_valid_cnpj` returns true iff the string strips to 14 digits, not all equal, whose two check digits follow the modulus-11 rule on the official tables |
| Validators.GetDocumentType | app/agric/validators.py:89-104 | the type is CPF iff 11 digits remain after stripping, CNPJ iff 14, and None otherwise; check digits play no part |
| Validators.MaskIsIrrelevant | app/agric/validators.py:32-33 | a masked document and its digit-only form get the same verdict from the CPF check, the CNPJ check and the classifier |
| Validators.RepeatedIsRejected | app/agric/validators.py:33 | a document whose digits are all equal is rejected by both checks, whatever its check digits |
| Validators.ValidDocumentsClassify | app/agric/validators.py:99-104 | a valid CPF classifies as CPF and a valid CNPJ as CNPJ |
| ValidatorVectors.AcceptsCpf12345678909 | app/agric/tests/test_validators.py:14-15 | 12345678909 is a valid CPF (sums 210 and 255) and classifies as CPF |
| ValidatorVectors.AcceptsCpf98765432100 | app/agric/tests/test_models.py:47 | 98765432100 is a valid CPF |
| ValidatorVectors.AcceptsCpf39053344705 | app/agric/tests/test_integration_api.py:186 | 39053344705 is a valid CPF |
| ValidatorVectors.RejectsCpf12345678900 | app/agric/tests/test_validators.py:17-18 | 12345678900 fails the CPF check yet still classifies as CPF |
| ValidatorVectors.RejectsRepeatedAndShortCpf | app/agric/tests/test_validators.py:20-27 | 11111111111 and 12345678 fail the CPF check; 12345678 has no type |
| ValidatorVectors.AcceptsCnpj11222333000181 | app/agric/tests/test_validators.py:29-30 | 11222333000181 meets the CNPJ rule that `is_valid_cnpj` decides (sums 102 and 120) and classifies as CNPJ |
| ValidatorVectors.StripsMaskedCpf | app/agric/tests/test_validators.py:23-24 | "123.456.789-09" strips to "12345678909" |
| ValidatorVectors.AcceptsMaskedCpf | app/agric/tests/test_validators.py:23-46 | "123.456.789-09" is a valid CPF and classifies as CPF |
| ValidatorVectors.StripsMaskedCnpj | app/agric/tests/test_validators.py:38-39 | "11.222.333/0001-81" strips to "11222333000181" |
| ValidatorVectors.StripsCnpjTail | app/agric/tests/test_validators.py:38-39 | the tail "333/0001-81" of that CNPJ strips to "333000181" |
| ValidatorVectors.AcceptsMaskedCnpj | app/agric/tests/test_validators.py:38-50 | "11.222.333/0001-81" meets the CNPJ rule that `is_valid_cnpj` decides and classifies as CNPJ |
| ValidatorVectors.RejectsCnpj11222333000100 | app/agric/tests/test_validators.py:32-33 | 11222333000100 fails the CNPJ rule |
| ValidatorVectors.RejectsRepeatedCnpj | app/agric/tests/test_validators.py:35-36 | 22222222222222 fails the CNPJ rule |
| ValidatorVectors.RejectsShortCnpj | app/agric/tests/test_validators.py:41-42 | 11222333 fails the CNPJ rule and has no type |
| ValidatorVectors.ClassifiesOthersAsNone | app/agric/tests/test_validators.py:52-55 | "" and "abc" have no type |
| Decimal.NatToDecimalRoundTrip | app/agric/models.py:157 | the decimal rendering of a natural number reads back as that number |
| Decimal.IntToDecimalRoundTrip | app/agric/models.py:157 | the rendering of an integer is a sign and digits, and it reads back as the same integer |
| Models.CheckDocument | app/agric/models.py:44-59 | `clean`'s verdict has five cases: CPF iff `is_valid_cpf`; CNPJ iff the CNPJ check holds; `InvalidCpf` iff 11 digits that fail; `InvalidCnpj` iff 14 digits that fail; `InvalidDocument` iff any other length |
| Models.CleanPropriedade | app/agric/models.py:131-135 | passes iff agricultural plus vegetation area does not exceed the total, equality allowed; otherwise the area error |
| Models.AddEstado | app/agric/models.py:69-74 | the store after a state insert; `AddEstadoOutcome` states when it fails and `AddEstadoKeepsConsistent` that success keeps the store consistent |
| Models.AddCidade | app/agric/models.py:83-94 | the store after a city insert; `AddCidadeOutcome` states its missing-state and duplicate (name, state) failures, `AddCidadeKeepsConsistent` its consistency |
| Models.AddTipoCultura | app/agric/models.py:100-105 | the store after a crop-type insert; `AddTipoCulturaOutcome` and `AddTipoCulturaKeepsConsistent` state its failure case and consistency |
| Models.AddProdutor | app/agric/models.py:44-63 | the store after `Produtor.save`; `AddProdutorOutcome`, `AddProdutorStoresCleanRow` and `AddProdutorKeepsConsistent` state its errors, the digit-only key with the derived type, and consistency |
| Models.AddPropriedade | app/agric/models.py:114-135 | the store after `full_clean` and `save` of a farm; `AddPropriedadeOutcome` and `AddPropriedadeKeepsConsistent` state the area rule, the foreign-key checks and consistency |
| Models.AddCultura | app/agric/models.py:142-154 | the store after a planting insert; `AddCulturaOutcome` and `AddCulturaKeepsConsistent` state the foreign-key checks, the (year, type, farm) uniqueness and consistency |
| Models.AddEstadoOutcome | app/agric/models.py:74 | inserting a state fails iff a state of that name exists |
| Models.AddCidadeOutcome | app/agric/models.py:90-94 | inserting a city fails with a missing reference iff its state is absent, and with a duplicate iff that state already has a city of that name |
| Models.AddTipoCulturaOutcome | app/agric/models.py:105 | inserting a crop type fails iff one of that name exists |
| Models.AddProdutorOutcome | app/agric/models.py:61-63 | saving a producer succeeds iff the document is a valid CPF or CNPJ whose digit-only key is not yet stored; otherwise `clean`'s error or the duplicate-key error |
| Models.AddProdutorStoresCleanRow | app/agric/models.py:44-63 | a successful save adds exactly the digit-only key, and the row stored there carries the type derived from the document, not the caller's |
| Models.AddPropriedadeOutcome | app/agric/models.py:125-135 | inserting a farm succeeds iff the area rule holds and its city and producer exist; a violated area rule gives the area error |
| Models.AddCulturaOutcome | app/agric/models.py:149-154 | inserting a planting fails with a missing reference iff its crop type or farm is absent, and with a duplicate iff the same (year, crop type, farm) is stored |
| Models.AddEstadoKeepsConsistent | app/agric/models.py:74 | a successful state insert keeps the store consistent and keeps every existing row |
| Models.AddCidadeKeepsConsistent | app/agric/models.py:90-94 | a successful city insert keeps the store consistent and keeps every existing row |
| Models.AddTipoCulturaKeepsConsistent | app/agric/models.py:105 | a successful crop-type insert keeps the store consistent and keeps every existing row |
| Models.AddProdutorKeepsConsistent | app/agric/models.py:61-63 | a successful producer save keeps the store consistent: every stored producer still has a valid, digit-only key and a derived type |
| Models.AddPropriedadeKeepsConsistent | app/agric/models.py:125-135 | a successful farm insert keeps the store consistent, the area rule included |
| Models.AddCulturaKeepsConsistent | app/agric/models.py:149-154 | a successful planting insert keeps the store consistent, the (year, type, farm) uniqueness included |
| Models.PruneLeavesNoOrphans | app/agric/models.py:90 | after the cascade every foreign key resolves, and only whole rows were removed |
| Models.RemovalKeepsConsistent | app/agric/models.py:125-126 | removing rows and then cascading keeps the store consistent |
| Models.PruneWithoutOrphans | app/agric/models.py:149-150 | the cascade removes nothing from a store without dangling references |
| Models.Prune | app/agric/models.py:90-150 | one cascade pass along every `on_delete=CASCADE` edge, children after parents; `PruneLeavesNoOrphans` and `PruneWithoutOrphans` state that it leaves no dangling reference and removes nothing when there is none |
| Models.WithoutEstado | app/agric/models.py:90 | a state delete with its cascade; `WithoutEstadoCascades` states exactly which rows go |
| Models.WithoutCidade | app/agric/models.py:125 | a city delete with its cascade; `WithoutCidadeCascades` states exactly which rows go |
| Models.WithoutTipoCultura | app/agric/models.py:149 | a crop-type delete with its cascade; `WithoutTipoCulturaCascades` states exactly which rows go |
| Models.WithoutProdutor | app/agric/models.py:126 | a producer delete with its cascade; `WithoutProdutorCascades` states exactly which rows go |
| Models.WithoutPropriedade | app/agric/models.py:150 | a farm delete with its cascade; `WithoutPropriedadeCascades` states exactly which rows go |
| Models.WithoutCultura | app/agric/models.py:142-154 | a planting delete; `WithoutCulturaRemovesOnlyIt` states that only that row goes |
| Models.WithoutEstadoCascades | app/agric/models.py:90 | deleting a state removes it and exactly the cities in it, the farms in those cities and their plantings; nothing else changes, and every surviving row keeps its values |
| Models.WithoutCidadeCascades | app/agric/models.py:125 | deleting a city removes it and exactly its farms and their plantings; nothing else changes, and every surviving row keeps its values |
| Models.WithoutTipoCulturaCascades | app/agric/models.py:149 | deleting a crop type removes it and exactly its plantings; nothing else changes, and every surviving row keeps its values |
| Models.WithoutProdutorCascades | app/agric/models.py:126 | deleting a producer removes it and exactly its farms and their plantings; nothing else changes, and every surviving row keeps its values |
| Models.WithoutPropriedadeCascades | app/agric/models.py:150 | deleting a farm removes it and exactly its plantings; nothing else changes, and every surviving row keeps its values |
| Models.WithoutCulturaRemovesOnlyIt | app/agric/models.py:142-154 | deleting a planting removes that row only |
| Models.Parenthesised | app/agric/models.py:66 | the `head (inner)` layout: the head, then " (", then the inner text, then ")" |
| Models.CidadeToString | app/agric/models.py:96-97 | a city's string is its name, then " (", its state's name, then ")" |
| Models.CulturaToString | app/agric/models.py:156-157 | a planting's string is the crop name, " - ", the year, " (", the farm's name, then ")" |
| Models.CulturaToStringShowsYear | app/agric/models.py:157 | the year inside a planting's string reads back as its `ano_safra` |
| Models.Produtor.constructor | app/agric/models.py:37-39 | a new instance holds the given document, type and name |
| Models.Produtor.Clean | app/agric/models.py:44-59 | the document is stripped in place whatever the outcome; on success the type is overwritten with the derived one, on failure it is left alone and the error is `clean`'s |
| Models.Produtor.ToString | app/agric/models.py:65-66 | a producer's string is its name, then " (", its document, then ")" |
| Models.CreateEstadoKeepsInv | app/agric/models.py:69-74 | inserting a state under the counter's id keeps the store consistent and every id below the advanced counter |
| Models.CreateCidadeKeepsInv | app/agric/models.py:83-94 | the same for a city |
| Models.CreateTipoCulturaKeepsInv | app/agric/models.py:100-105 | the same for a crop type |
| Models.SaveProdutorKeepsInv | app/agric/models.py:61-63 | saving a producer keeps the store consistent and uses no id |
| Models.SavePropriedadeKeepsInv | app/agric/models.py:114-135 | inserting a farm under the counter's id keeps the store consistent and every id below the advanced counter |
| Models.CreateCulturaKeepsInv | app/agric/models.py:142-154 | the same for a planting |
| Models.DeleteKeepsInv | app/agric/models.py:90 | a delete followed by its cascade keeps the store consistent and the counter fresh |
| Models.Registry.constructor | app/agric/models.py:25-157 | the registry starts with six empty tables, which satisfy every invariant |
| Models.Registry.CreateEstado | app/agric/models.py:69-74 | the tables become what `AddEstado` computes; on success the new id is the counter's, which moves by one; on failure nothing changes |
| Models.Registry.CreateCidade | app/agric/models.py:83-94 | the same with `AddCidade`: a missing state or a duplicate (name, state) leaves the store unchanged |
| Models.Registry.CreateTipoCultura | app/agric/models.py:100-105 | the same with `AddTipoCultura` |
| Models.Registry.SaveProdutor | app/agric/models.py:44-63 | runs `Clean` on the instance, which strips it in place, then stores it under its digit-only key; the tables become what `AddProdutor` computes from the raw document. The instance's type becomes the derived one whenever `clean` passes (a duplicate key included), and keeps the caller's when `clean` raises |
| Models.Registry.SavePropriedade | app/agric/models.py:114-135 | `full_clean` then `save`: the tables become what `AddPropriedade` computes |
| Models.Registry.CreateCultura | app/agric/models.py:142-154 | the same with `AddCultura` |
| Models.Registry.DropOrphans | app/agric/models.py:125-126 | removes every row left without its parent, children after parents |
| Models.Registry.DeleteEstado | app/agric/models.py:90 | the tables become `WithoutEstado` of the old ones; reports whether the state existed |
| Models.Registry.DeleteCidade | app/agric/models.py:125 | the tables become `WithoutCidade` of the old ones |
| Models.Registry.DeleteTipoCultura | app/agric/models.py:149 | the tables become `WithoutTipoCultura` of the old ones |
| Models.Registry.DeleteProdutor | app/agric/models.py:126 | the tables become `WithoutProdutor` of the old ones |
| Models.Registry.DeletePropriedade | app/agric/models.py:150 | the tables become `WithoutPropriedade` of the old ones |
| Models.Registry.DeleteCultura | app/agric/models.py:142-154 | the tables become `WithoutCultura` of the old ones |
| ModelVectors.AreaRuleVectors | app/agric/tests/test_models.py:44-72 | 60 + 40 against 100 passes the area rule; 80 + 30 fails it |
| ModelVectors.SecondEstadoIsRejected | app/agric/tests/test_models.py:25-29 | a second "Minas Gerais" is refused as a duplicate |
| ModelVectors.SecondCidadeIsRejected | app/agric/tests/test_models.py:31-36 | a second "Salvador" in the same state is refused as a duplicate |
| ModelVectors.SecondCulturaIsRejected | app/agric/tests/test_models.py:74-98 | the same crop, farm and year is refused the second time |
| ModelVectors.ShortDocumentIsRejected | app/agric/tests/test_models.py:20-23 | saving a producer with document "123" fails as an invalid document |
| ModelVectors.ProdutorToStringVector | app/agric/tests/test_models.py:9-12 | `str` of the CPF producer is "Produtor CPF (12345678909)" |
| ModelVectors.CidadeToStringVector | app/agric/tests/test_models.py:31-34 | `str` of Salvador in Bahia is "Salvador (Bahia)" |
| ModelVectors.CulturaToStringVector | app/agric/tests/test_models.py:92 | `str` of the 2025 maize planting is "Milho - 2025 (Fazenda Cultura)" |
| ModelVectors.YearVector | app/agric/models.py:157 | 2025 renders as "2025" |
| Serializers.ValidateCpfCnpj | app/agric/serializers.py:36-40 | accepts iff the document has 11 or 14 digits (exactly when the classifier finds a type) and returns the digit-only form; otherwise the length error |
| Serializers.LengthTag | app/agric/serializers.py:26-32 | the type `create` writes by length alone; `LengthTagAgreesWithClean` proves it equals the type `Produtor.clean` derives for every value the gate accepts |
| Serializers.ValidateIsIdempotent | app/agric/serializers.py:37-40 | validating an already validated value returns it unchanged |
| Serializers.LengthTagAgreesWithClean | app/agric/serializers.py:25-33 | for every value the gate accepts, the type `create` writes by length equals the type `Produtor.clean` derives |
| Serializers.GateIsSubsumedByModel | app/agric/serializers.py:36-40 | the serializer's stripping changes nothing the model decides or stores, and whatever the gate refuses, the model refuses too |
| Serializers.GateVectors | app/agric/serializers.py:38-39 | "123" is refused by the gate; "12345678900" passes the gate but `clean` rejects it as an invalid CPF |
| Serializers.ProdutorSerializer.constructor | app/agric/serializers.py:17-22 | the serializer holds the given validated data |
| Serializers.ProdutorSerializer.Create | app/agric/serializers.py:22-33 | overwrites only `tipo_documento`: "CPF" for 11 characters, "CNPJ" for 14, "" otherwise. It saves a producer built from the data, and the tables become what `AddProdutor` computes |
| Dashboard.Scan | app/agric/views.py:137 | a table read lists only stored keys below the counter |
| Dashboard.ScanListsKeys | app/agric/views.py:137 | a table read lists every stored key below the counter, in strictly ascending order |
| Dashboard.ScanCount | app/agric/views.py:131 | a table read has one entry per stored key below the counter |
| Dashboard.ScanCoversTable | app/agric/views.py:131 | when every key is below the counter, the read lists the whole table, one entry per row |
| Dashboard.LabelsSpec | app/agric/views.py:138 | the grouping values are distinct; each row's value is among them, and a value is among them iff some row carries it |
| Dashboard.GroupsPartitionRows | app/agric/views.py:139-142 | the groups account for every row once, so the counts add up to the rows and the areas to the total area |
| Dashboard.GroupBySpec | app/agric/views.py:136-142 | one group per distinct value. A group is listed iff its count is at least 1 and it carries that value's row count and area sum. Counts and areas add up to the totals |
| Dashboard.GroupBy | app/agric/views.py:136-142 | `values(...).annotate(Count, Sum)`; `GroupBySpec` and `GroupsPartitionRows` state one group per distinct value with its count and area sum, adding up to the totals |
| Dashboard.InsertMembers | app/agric/views.py:143 | placing a group adds exactly that group |
| Dashboard.InsertSorted | app/agric/views.py:143 | placing a group into a list ordered by count keeps it ordered |
| Dashboard.InsertTotals | app/agric/views.py:143 | placing a group adds its count and area to the totals |
| Dashboard.SortByCountSpec | app/agric/views.py:143 | ordering by count gives a non-increasing permutation of the groups with the same totals |
| Dashboard.SortKeepsDistinct | app/agric/views.py:151 | ordering never makes two groups share a value |
| Dashboard.SortByCount | app/agric/views.py:143 | `order_by('-qtd_fazendas')` and `order_by('-qtd')`; `SortByCountSpec` states a non-increasing permutation with the same totals |
| Dashboard.Aggregate | app/agric/views.py:159-162 | SQL `SUM` over the farms, NULL over no rows; `SummaryTotals` states the land-use sums are absent iff there are no farms |
| Dashboard.OrZero | app/agric/views.py:133 | the `or 0` on `total_hectares`; `SummaryTotals` states it is 0 on an empty store and otherwise the per-state areas' total |
| Dashboard.Renamed | app/agric/views.py:153-156 | the crop rows with `nome_tipo_cultura` renamed to `tipo_cultura`; `RenameCropRows` proves the source's loop computes it |
| Dashboard.Summarize | app/agric/views.py:129-170 | `DashboardView.get` over a snapshot; `SummaryTotals`, `SummaryGroups` and `CropGroups` state its totals, groups and orderings, and `Get` proves the endpoint returns it |
| Dashboard.SummaryTotals | app/agric/views.py:129-170 | `total_fazendas` is the number of farms. The per-state counts and hectares add up to `total_fazendas` and `total_hectares`, and the per-crop counts add up to the plantings. The land-use sums are absent iff there are no farms, and `total_hectares` is then 0 |
| Dashboard.LandUseWithinAreas | app/agric/models.py:131-135 | over any list of stored farms that keep the area rule, the agricultural sum plus the vegetation sum is at most the total-area sum |
| Dashboard.LandUseWithinTotal | app/agric/views.py:131-162 | once there are farms, both `uso_do_solo` sums are present and together do not exceed `total_hectares` |
| Dashboard.SummaryGroups | app/agric/views.py:136-144 | `fazendas_por_estado` is ordered by count, names no state twice, and lists a state iff it has a farm, with that state's farm count and area sum; every farm's state is listed |
| Dashboard.EveryFarmStateListed | app/agric/views.py:136-142 | with every id below the counter, each stored farm's state (reached through its city) is listed in `fazendas_por_estado` with that state's farm count and area sum |
| Dashboard.CropGroups | app/agric/views.py:147-156 | the crop groups are ordered by count and name no crop twice. Each listed crop has its planting count. `culturas_plantadas` is those groups renamed, in the same order |
| Dashboard.RenameCropRows | app/agric/views.py:153-156 | the loop produces, in order, each grouped crop row with its key renamed to `tipo_cultura` and its count kept |
| Dashboard.Get | app/agric/views.py:129-170 | computes the dashboard from the registry without changing it, and the result is `Summarize` of its tables |
| Dashboard.SummaryOfOneFarm | app/agric/views.py:129-170 | with one farm and one planting: one farm of the farm's area, one state group and one crop group of count 1, land-use sums equal to the farm's own |
| Dashboard.DashboardOfOneFarm | app/agric/tests/test_dashboard_api.py:12-59 | the dashboard fixture (one 100/60/40 farm in Minas Gerais with one soy planting) gives 1, 100, [Minas Gerais: 1, 100], [Soja: 1], 60 and 40 |

## Left out

- The ORM and the persistence layer are replaced by in-memory maps. Concurrency and transactions are not modelled.
- Django's `full_clean` machinery around `clean` is left out: all of `clean_fields` (the blank, `max_length` and `choices` checks), which runs before `clean`. Of `validate_unique`, only the producer primary-key check is modelled, as the duplicate-key error. DRF's own `UniqueValidator` on `cpf_cnpj` is left out as well; the model's key check covers the same case.
- Models.AddProdutorOutcome: success is stated for every valid, new document, but the source's `full_clean` (app/agric/models.py:62) also refuses a producer whose caller-supplied `tipo_documento` or `nome_produtor` is empty (both fields are `blank=False`, and `tipo_documento` has no default, models.py:38-39), because `clean_fields` runs before `clean` derives the type. The model stores such a producer. `Models.Registry.SaveProdutor` and `Models.AddProdutor` behave the same way.
- The logger calls (app/agric/models.py:50,54,57,133) are left out.
- Areas are exact `real` numbers. IEEE rounding in the sums and in the area comparison is not modelled. The source does not check that areas are non-negative, and neither does the model.
- Digits are the ASCII characters '0'..'9'. Python's `\D` and `str.isdigit` also treat other Unicode decimal digits as digits; the model does not. `str.isdigit` (app/agric/serializers.py:37) accepts still more, such as superscript digits, which `\D` (app/agric/validators.py:32) strips, so the two strippings in the source can disagree on such input; the model strips both the same way.
- `Estado.__str__`, `TipoCultura.__str__` and `Propriedade.__str__` return one field as it is, and are not modelled.
- Update paths (PUT/PATCH through the ViewSets), the ViewSets themselves, URL routing, the Estado and Cidade serializers, and the seed and reset commands are left out.
- Models.Registry: each table's `BigAutoField` sequence is modelled as one shared counter, so ids are unique across tables and not consecutive per table.
- Models.Registry.Valid: it carries only id freshness. Store consistency is proved on the store functions by the `...KeepsInv` lemmas, which the methods' `Snapshot() == Applied(...)` and `Without...` postconditions connect to every call.
- Dashboard.Summarize: tables are read in primary-key order, and tied groups keep the order the sort leaves them in. The database promises no order for ties, and no contract states one.
- Dashboard.CropGroups: a crop group also carries an area field, which is always 0 and is not part of `culturas_plantadas`.
- Serializers.ProdutorSerializer.Create: `validated_data` is modelled as a string-to-string map, and the HTTP layer around it (status codes, error bodies) is not modelled.
