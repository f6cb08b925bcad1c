/** The dependents section: one eight-column record per dependent sub-form,
    appended in the order the sub-forms appear. The dependent's uploaded CPF
    document is read but kept in no record. */
module Dependents {
  import opened Wrappers
  import opened Form

  const DependentColumns: seq<string> :=
    ["Nome", "CPF", "Nascimento", "Sexo", "Parentesco", "Filiação", "IR", "Salário Família"]

  /** The record of one dependent. */
  function DependentRow(d: DependentForm): (row: Row)
    ensures Keys(row) == DependentColumns
    ensures forall k :: 0 <= k < |row| ==> row[k].1.Text?
  {
    [ ("Nome", Text(d.nome)), ("CPF", Text(d.cpf)), ("Nascimento", Text(d.nasc)),
      ("Sexo", Text(d.sexo)), ("Parentesco", Text(d.parentesco)),
      ("Filiação", Text(d.filiacao)), ("IR", Text(d.ir)),
      ("Salário Família", Text(d.salarioFamilia)) ]
  }

  /** The record does not depend on the uploaded document. */
  lemma RowIgnoresAttachment(d: DependentForm, other: Upload)
    ensures DependentRow(d.(cpfAnexo := other)) == DependentRow(d)
  {
  }

  /** Each column of a dependent's record holds the matching sub-form value,
      and any other column, an attachment column among them, is absent. */
  lemma DependentRowValues(d: DependentForm)
    ensures DistinctKeys(DependentColumns)
    ensures Lookup(DependentRow(d), "Nome") == Some(Text(d.nome))
    ensures Lookup(DependentRow(d), "CPF") == Some(Text(d.cpf))
    ensures Lookup(DependentRow(d), "Nascimento") == Some(Text(d.nasc))
    ensures Lookup(DependentRow(d), "Sexo") == Some(Text(d.sexo))
    ensures Lookup(DependentRow(d), "Parentesco") == Some(Text(d.parentesco))
    ensures Lookup(DependentRow(d), "Filiação") == Some(Text(d.filiacao))
    ensures Lookup(DependentRow(d), "IR") == Some(Text(d.ir))
    ensures Lookup(DependentRow(d), "Salário Família") == Some(Text(d.salarioFamilia))
    ensures forall key :: key !in DependentColumns ==> Lookup(DependentRow(d), key) == None
  {
    var row := DependentRow(d);
    LookupAt(row, 0); LookupAt(row, 1); LookupAt(row, 2); LookupAt(row, 3);
    LookupAt(row, 4); LookupAt(row, 5); LookupAt(row, 6); LookupAt(row, 7);
    forall key | key !in DependentColumns ensures Lookup(row, key) == None {
      LookupAbsent(row, key);
    }
  }

  /** The list the section builds, as a specification: empty unless the
      answer is "Sim", otherwise one record per sub-form up to `qtd`. */
  function DependentList(temDependente: string, qtd: int, forms: seq<DependentForm>): seq<Row>
    requires temDependente == "Sim" ==> 0 <= qtd <= |forms|
  {
    if temDependente == "Sim" then seq(qtd, i requires 0 <= i < qtd => DependentRow(forms[i]))
    else []
  }

  /** The loop of the dependents section. */
  method CollectDependents(temDependente: string, qtd: int, forms: seq<DependentForm>)
    returns (dependentes: seq<Row>)
    requires temDependente == "Sim" ==> 1 <= qtd <= |forms|
    ensures temDependente != "Sim" ==> dependentes == []
    ensures temDependente == "Sim" ==> |dependentes| == qtd
    ensures |dependentes| <= |forms|
    ensures forall i :: 0 <= i < |dependentes| ==> dependentes[i] == DependentRow(forms[i])
    ensures dependentes == DependentList(temDependente, qtd, forms)
  {
    dependentes := [];
    if temDependente == "Sim" {
      var i := 0;
      while i < qtd
        invariant 0 <= i <= qtd
        invariant |dependentes| == i
        invariant forall k :: 0 <= k < i ==> dependentes[k] == DependentRow(forms[k])
      {
        var d := forms[i];
        dependentes := dependentes + [DependentRow(d)];
        i := i + 1;
      }
    }
  }
}
