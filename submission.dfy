/** One run of the form script: the reserve values and the dependent list
    are settled while the page is read, and pressing the send button runs
    the gate and, on acceptance, the save plan. */
module Submission {
  import opened Wrappers
  import opened Form
  import opened Gate
  import opened Reservista
  import opened Dependents
  import opened EmployeeRow
  import opened SavePlan

  /** The send button's branch: the decision, and the actions it takes. A
      rejected form (incomplete, or with a CPF the checksum refuses) saves
      nothing. */
  method Submit(f: AdmissionForm, reservista: ReservistaInput, dependentes: seq<Row>,
                cpfValid: string -> bool, now: Timestamp)
    returns (outcome: Outcome, actions: seq<Action>)
    ensures outcome == Decide(f, cpfValid)
    ensures outcome != Accepted ==> actions == []
    ensures outcome == Accepted ==>
      AllRequiredPresent(f) && actions == Plan(f, EmployeeRecord(f, reservista, now), dependentes)
  {
    var obrigatorios := RequiredValues(f);
    if TextValue("") in obrigatorios || FileValue(None) in obrigatorios {
      return MissingFields, [];
    }
    if !cpfValid(f.cpf) {
      return InvalidCpf, [];
    }
    outcome := Accepted;
    var pasta := Folder(f.cpf);
    actions := [MakeDir(pasta)];
    var writes := WriteUploads(pasta, [(f.cpfAnexo.value, "CPF.pdf"), (f.rg.value, "RG.pdf"),
                                       (f.ctps.value, "CTPS.pdf")]);
    actions := actions + writes;
    var dados := EmployeeRecord(f, reservista, now);
    actions := actions + [WriteFile(FilePath(pasta, "dados_admissao.xlsx"), Sheet([dados]))];
    if dependentes != [] {
      actions := actions + [WriteFile(FilePath(pasta, "dependentes.xlsx"), Sheet(dependentes))];
    }
  }

  /** The actions of a whole run, as a specification. */
  function RunPlan(f: AdmissionForm, pressed: bool, cpfValid: string -> bool, now: Timestamp): seq<Action>
    requires WellFormed(f)
  {
    if pressed && Decide(f, cpfValid) == Accepted then
      Plan(f, EmployeeRecord(f, ReservistaValues(f.sexo, f.reservistaInput), now),
           DependentList(f.temDependente, f.qtd, f.dependentForms))
    else []
  }

  /** One run of the script over a filled-in page. */
  method RunScript(f: AdmissionForm, pressed: bool, cpfValid: string -> bool, now: Timestamp)
    returns (outcome: Option<Outcome>, actions: seq<Action>)
    requires WellFormed(f)
    ensures !pressed ==> outcome == None
    ensures pressed ==> outcome == Some(Decide(f, cpfValid))
    ensures actions == RunPlan(f, pressed, cpfValid, now)
  {
    var reservista := ReservistaValues(f.sexo, f.reservistaInput);
    var dependentes := CollectDependents(f.temDependente, f.qtd, f.dependentForms);
    if !pressed {
      return None, [];
    }
    var o;
    o, actions := Submit(f, reservista, dependentes, cpfValid, now);
    outcome := Some(o);
  }

  /** What a run saves, in the form's own terms: nothing unless the button
      is pressed on a complete form whose CPF passes the checksum; then the
      employee sheet carries the composed address and the reserve values
      (blank unless "Masculino"), and the dependents sheet is written exactly
      when "Sim" was answered, holding one record per sub-form. */
  lemma RunSaves(f: AdmissionForm, pressed: bool, cpfValid: string -> bool, now: Timestamp)
    requires WellFormed(f)
    ensures RunPlan(f, pressed, cpfValid, now) != [] <==>
      pressed && AllRequiredPresent(f) && cpfValid(f.cpf)
    ensures RunPlan(f, pressed, cpfValid, now) != [] ==>
      var p, pasta := RunPlan(f, pressed, cpfValid, now), Folder(f.cpf);
      var dados := EmployeeRecord(f, ReservistaValues(f.sexo, f.reservistaInput), now);
      WriteFile(FilePath(pasta, "dados_admissao.xlsx"), Sheet([dados])) in p &&
      Lookup(dados, "Endereço") == Some(Text(f.logradouro + ", " + f.numero + " - " + f.bairro)) &&
      (f.sexo != "Masculino" ==>
         Lookup(dados, "Reservista Número") == Some(Text("")) &&
         Lookup(dados, "RA") == Some(Text("")) &&
         Lookup(dados, "Categoria") == Some(Text(""))) &&
      ((exists a :: a in p && a.WriteFile? && a.path == FilePath(pasta, "dependentes.xlsx"))
         <==> f.temDependente == "Sim")
    ensures RunPlan(f, pressed, cpfValid, now) != [] && f.temDependente == "Sim" ==>
      var deps := DependentList(f.temDependente, f.qtd, f.dependentForms);
      WriteFile(FilePath(Folder(f.cpf), "dependentes.xlsx"), Sheet(deps)) in RunPlan(f, pressed, cpfValid, now) &&
      |deps| == f.qtd &&
      forall i :: 0 <= i < f.qtd ==> deps[i] == DependentRow(f.dependentForms[i])
  {
    if pressed && Decide(f, cpfValid) == Accepted {
      var reservista := ReservistaValues(f.sexo, f.reservistaInput);
      var dados := EmployeeRecord(f, reservista, now);
      var deps := DependentList(f.temDependente, f.qtd, f.dependentForms);
      PlanSheets(f, dados, deps);
      EmployeeRecordColumns(f, reservista, now, dados);
      assert f.temDependente == "Sim" ==> deps[0] == DependentRow(f.dependentForms[0]);
    }
  }
}
