/** The decision taken when "Enviar Admissão" is pressed: first the check
    that no required value is empty or missing, then the CPF checksum. The
    checksum belongs to an outside library and is passed in as `cpfValid`. */
module Gate {
  import opened Wrappers
  import opened Form

  /** An entry of the required list: a text value or an upload. */
  datatype Required = TextValue(text: string) | FileValue(file: Upload)

  datatype Outcome = MissingFields | InvalidCpf | Accepted

  /** The 21 required values, in the order the script lists them. */
  function RequiredValues(f: AdmissionForm): seq<Required> {
    [ TextValue(f.nome), TextValue(f.cpf), FileValue(f.cpfAnexo),
      TextValue(f.dataNasc), TextValue(f.sexo), TextValue(f.estadoCivil),
      TextValue(f.paisNasc), TextValue(f.paisNacionalidade), TextValue(f.raca),
      TextValue(f.filiacao1), TextValue(f.cep), TextValue(f.logradouro),
      TextValue(f.bairro), TextValue(f.numero), TextValue(f.celular),
      TextValue(f.email), TextValue(f.tipoConta), TextValue(f.agencia),
      TextValue(f.conta), FileValue(f.rg), FileValue(f.ctps) ]
  }

  /** Field by field: every required text is non-empty and every required
      document was uploaded. */
  predicate AllRequiredPresent(f: AdmissionForm) {
    f.nome != "" && f.cpf != "" && f.cpfAnexo.Some? && f.dataNasc != "" &&
    f.sexo != "" && f.estadoCivil != "" && f.paisNasc != "" &&
    f.paisNacionalidade != "" && f.raca != "" && f.filiacao1 != "" &&
    f.cep != "" && f.logradouro != "" && f.bairro != "" && f.numero != "" &&
    f.celular != "" && f.email != "" && f.tipoConta != "" &&
    f.agencia != "" && f.conta != "" && f.rg.Some? && f.ctps.Some?
  }

  /** The three-way decision. The required list is scanned for an empty
      text and for an absent upload (a text never equals None and an upload
      never equals ""); only a complete form reaches the CPF check. */
  function Decide(f: AdmissionForm, cpfValid: string -> bool): (o: Outcome)
    ensures o == MissingFields <==> !AllRequiredPresent(f)
    ensures o == InvalidCpf <==> AllRequiredPresent(f) && !cpfValid(f.cpf)
    ensures o == Accepted <==> AllRequiredPresent(f) && cpfValid(f.cpf)
  {
    var required := RequiredValues(f);
    if TextValue("") in required || FileValue(None) in required then MissingFields
    else if !cpfValid(f.cpf) then InvalidCpf
    else Accepted
  }

  /** An incomplete form is rejected as incomplete whatever the checksum
      library answers. */
  lemma CpfIgnoredWhenIncomplete(f: AdmissionForm, v1: string -> bool, v2: string -> bool)
    requires !AllRequiredPresent(f)
    ensures Decide(f, v1) == Decide(f, v2) == MissingFields
  {
  }

  /** On a complete form the checksum alone decides. */
  lemma CpfDecidesWhenComplete(f: AdmissionForm, cpfValid: string -> bool)
    requires AllRequiredPresent(f)
    ensures Decide(f, cpfValid) == if cpfValid(f.cpf) then Accepted else InvalidCpf
  {
  }

  /** Filiação 2, the PIX key, the reserve inputs and the dependents are not
      in the required list: whatever they hold, the decision is the same. */
  lemma OptionalFieldsNeverReject(f: AdmissionForm, cpfValid: string -> bool,
                                  filiacao2: string, chavePix: string,
                                  reservista: ReservistaInput, temDependente: string,
                                  qtd: int, dependentForms: seq<DependentForm>)
    ensures Decide(f.(filiacao2 := filiacao2, chavePix := chavePix,
                      reservistaInput := reservista, temDependente := temDependente,
                      qtd := qtd, dependentForms := dependentForms), cpfValid)
         == Decide(f, cpfValid)
  {
  }
}
