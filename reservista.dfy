/** The military-reserve fields: they start out blank and take the values
    typed into their inputs only when the declared sex is "Masculino". */
module Reservista {
  import opened Form

  const Blank := ReservistaInput("", "", "")

  /** The reserve values the submission carries. */
  function ReservistaValues(sexo: string, entered: ReservistaInput): (r: ReservistaInput)
    ensures sexo == "Masculino" ==> r == entered
    ensures sexo != "Masculino" ==> r.num == "" && r.ra == "" && r.cat == ""
  {
    if sexo == "Masculino" then entered else Blank
  }

  /** A non-blank reserve value can only come from a form declaring
      "Masculino", and then it is the one typed in. */
  lemma NonBlankOnlyForMale(sexo: string, entered: ReservistaInput)
    requires ReservistaValues(sexo, entered) != Blank
    ensures sexo == "Masculino" && ReservistaValues(sexo, entered) == entered
  {
  }
}
