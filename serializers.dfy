/**
 * The producer intake of the REST API: the serializer normalises the submitted
 * document and gates it on its length, then fills in the read-only document type
 * before handing the data to the model, whose `save` runs `clean` again.
 */
module Serializers {
  import opened Results
  import opened Validators
  import opened Models
  import ValidatorVectors

  /** The one error `validate_cpf_cnpj` raises: neither 11 nor 14 digits. */
  datatype ValidationError = WrongLength

  /**
   * `validate_cpf_cnpj`: keep the digits only, and refuse any count but 11 or 14. The
   * gate is exactly the classifier's, and the check digits play no part.
   */
  function ValidateCpfCnpj(value: string): (r: Result<string, ValidationError>)
    ensures r.Success? <==> GetDocumentType(value).Some?
    ensures r.Success? ==> r.value == OnlyDigits(value) && AllDigits(r.value)
    ensures r.Failure? ==> r.error == WrongLength
  {
    var digits := OnlyDigits(value);
    if !(|digits| == 11 || |digits| == 14) then Failure(WrongLength) else Success(digits)
  }

  /** Validating an already validated value gives it back unchanged. */
  lemma ValidateIsIdempotent(value: string)
    requires ValidateCpfCnpj(value).Success?
    ensures ValidateCpfCnpj(ValidateCpfCnpj(value).value) == ValidateCpfCnpj(value)
  {
    OnlyDigitsIdempotent(value);
  }

  /** The type `create` writes, read off the length of the document. */
  function LengthTag(cpfCnpj: string): string {
    if |cpfCnpj| == 11 then "CPF"
    else if |cpfCnpj| == 14 then "CNPJ"
    else ""
  }

  /** `validated_data.get(key, "")`. */
  function Get(data: map<string, string>, key: string): string {
    if key in data then data[key] else ""
  }

  /**
   * On every value the gate lets through, the serializer's length tag is the type
   * that `Produtor.clean` derives again: the two never disagree.
   */
  lemma LengthTagAgreesWithClean(value: string)
    requires ValidateCpfCnpj(value).Success?
    ensures var v := ValidateCpfCnpj(value).value;
            GetDocumentType(v).Some? && LengthTag(v) == Tag(GetDocumentType(v).value)
            && LengthTag(v) == Tag(GetDocumentType(value).value)
  {
    MaskIsIrrelevant(value);
  }

  /**
   * Stripping in the serializer changes nothing the model decides or stores, since
   * `clean` strips again; and whatever the gate refuses, the model refuses as well.
   */
  lemma GateIsSubsumedByModel(db: Db, value: string, nome: string)
    ensures ValidateCpfCnpj(value).Success? ==>
              AddProdutor(db, ValidateCpfCnpj(value).value, nome) == AddProdutor(db, value, nome)
    ensures ValidateCpfCnpj(value).Failure? ==> AddProdutor(db, value, nome) == Failure(InvalidDocument)
  {
    MaskIsIrrelevant(value);
    OnlyDigitsIdempotent(value);
    var v := OnlyDigits(value);
    MaskIsIrrelevant(v);
    assert CheckDocument(v) == CheckDocument(value);
  }

  /** A too-short value is refused; a wrong check digit passes the gate and is refused by `clean`. */
  lemma GateVectors(short: string, badCpf: string)
    requires short == "123" && badCpf == "12345678900"
    ensures ValidateCpfCnpj(short) == Failure(WrongLength)
    ensures ValidateCpfCnpj(badCpf) == Success(badCpf) && CheckDocument(badCpf) == Failure(InvalidCpf)
  {
    OnlyDigitsKeepsDigits(short);
    OnlyDigitsKeepsDigits(badCpf);
    ValidatorVectors.RejectsCpf12345678900(badCpf);
  }

  /** `ProdutorSerializer` after validation: the validated data, updated in place by `create`. */
  class ProdutorSerializer {
    var validatedData: map<string, string>

    constructor (validatedData: map<string, string>)
      ensures this.validatedData == validatedData
    {
      this.validatedData := validatedData;
    }

    /**
     * `create`: overwrites `tipo_documento` by the length of `cpf_cnpj` (absent counts
     * as ""), leaves every other key alone, and saves a new producer built from the
     * data, which runs `clean` and the primary-key check.
     */
    method Create(reg: Registry) returns (r: Outcome<ModelError>)
      requires reg.Valid()
      modifies this, reg
      ensures validatedData == old(validatedData)["tipo_documento" := LengthTag(Get(old(validatedData), "cpf_cnpj"))]
      ensures reg.Valid()
      ensures var expected := AddProdutor(old(reg.Snapshot()), Get(old(validatedData), "cpf_cnpj"),
                                          Get(old(validatedData), "nome_produtor"));
        reg.Snapshot() == Applied(old(reg.Snapshot()), expected)
        && (r.Pass? <==> expected.Success?)
        && (r.Fail? ==> r.error == expected.error)
    {
      var cpfCnpj := Get(validatedData, "cpf_cnpj");
      if |cpfCnpj| == 11 {
        validatedData := validatedData["tipo_documento" := "CPF"];
      } else if |cpfCnpj| == 14 {
        validatedData := validatedData["tipo_documento" := "CNPJ"];
      } else {
        validatedData := validatedData["tipo_documento" := ""];
      }
      var p := new Produtor(cpfCnpj, validatedData["tipo_documento"], Get(validatedData, "nome_produtor"));
      r := reg.SaveProdutor(p);
    }
  }
}
