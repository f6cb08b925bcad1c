/** The employee record written to dados_admissao.xlsx: 22 columns in a
    fixed order, the address composed from three inputs, and the save
    moment in the last column. */
module EmployeeRow {
  import opened Wrappers
  import opened Form

  const EmployeeColumns: seq<string> :=
    [ "Nome", "CPF", "Nascimento", "Sexo", "Estado Civil", "País Nascimento",
      "Nacionalidade", "Raça", "Filiação 1", "Filiação 2", "Endereço", "CEP",
      "Celular", "Email", "Banco Tipo", "Agência", "Conta", "PIX",
      "Reservista Número", "RA", "Categoria", "Data Envio" ]

  /** "logradouro, numero - bairro". */
  function Address(logradouro: string, numero: string, bairro: string): string {
    logradouro + ", " + numero + " - " + bairro
  }

  /** The composed address starts with the street, ends with the
      neighbourhood, and holds the number between the two separators. */
  lemma AddressParts(logradouro: string, numero: string, bairro: string)
    ensures var a := Address(logradouro, numero, bairro);
      |a| == |logradouro| + |numero| + |bairro| + 5 &&
      a[..|logradouro|] == logradouro &&
      a[|logradouro|..|logradouro| + 2] == ", " &&
      a[|logradouro| + 2..|logradouro| + 2 + |numero|] == numero &&
      a[|logradouro| + 2 + |numero|..|logradouro| + 5 + |numero|] == " - " &&
      a[|logradouro| + 5 + |numero|..] == bairro
  {
  }

  /** The record of the employee, given the reserve values in force and the
      save moment. */
  function EmployeeRecord(f: AdmissionForm, reservista: ReservistaInput, now: Timestamp): (row: Row)
    ensures Keys(row) == EmployeeColumns
  {
    [ ("Nome", Text(f.nome)),
      ("CPF", Text(f.cpf)),
      ("Nascimento", Text(f.dataNasc)),
      ("Sexo", Text(f.sexo)),
      ("Estado Civil", Text(f.estadoCivil)),
      ("País Nascimento", Text(f.paisNasc)),
      ("Nacionalidade", Text(f.paisNacionalidade)),
      ("Raça", Text(f.raca)),
      ("Filiação 1", Text(f.filiacao1)),
      ("Filiação 2", Text(f.filiacao2)),
      ("Endereço", Text(Address(f.logradouro, f.numero, f.bairro))),
      ("CEP", Text(f.cep)),
      ("Celular", Text(f.celular)),
      ("Email", Text(f.email)),
      ("Banco Tipo", Text(f.tipoConta)),
      ("Agência", Text(f.agencia)),
      ("Conta", Text(f.conta)),
      ("PIX", Text(f.chavePix)),
      ("Reservista Número", Text(reservista.num)),
      ("RA", Text(reservista.ra)),
      ("Categoria", Text(reservista.cat)),
      ("Data Envio", Moment(now)) ]
  }

  /** The record has 22 columns, no two of the same name. */
  lemma EmployeeColumnsDistinct()
    ensures |EmployeeColumns| == 22 && DistinctKeys(EmployeeColumns)
  {
  }

  /** What each of the 22 columns holds: the matching form value, the
      address composed as "logradouro, numero - bairro", the reserve values
      in force, and the supplied save moment. */
  lemma EmployeeRecordColumns(f: AdmissionForm, reservista: ReservistaInput, now: Timestamp,
                              row: Row)
    requires row == EmployeeRecord(f, reservista, now)
    ensures Lookup(row, "Nome") == Some(Text(f.nome))
    ensures Lookup(row, "CPF") == Some(Text(f.cpf))
    ensures Lookup(row, "Nascimento") == Some(Text(f.dataNasc))
    ensures Lookup(row, "Sexo") == Some(Text(f.sexo))
    ensures Lookup(row, "Estado Civil") == Some(Text(f.estadoCivil))
    ensures Lookup(row, "País Nascimento") == Some(Text(f.paisNasc))
    ensures Lookup(row, "Nacionalidade") == Some(Text(f.paisNacionalidade))
    ensures Lookup(row, "Raça") == Some(Text(f.raca))
    ensures Lookup(row, "Filiação 1") == Some(Text(f.filiacao1))
    ensures Lookup(row, "Filiação 2") == Some(Text(f.filiacao2))
    ensures Lookup(row, "Endereço") == Some(Text(f.logradouro + ", " + f.numero + " - " + f.bairro))
    ensures Lookup(row, "CEP") == Some(Text(f.cep))
    ensures Lookup(row, "Celular") == Some(Text(f.celular))
    ensures Lookup(row, "Email") == Some(Text(f.email))
    ensures Lookup(row, "Banco Tipo") == Some(Text(f.tipoConta))
    ensures Lookup(row, "Agência") == Some(Text(f.agencia))
    ensures Lookup(row, "Conta") == Some(Text(f.conta))
    ensures Lookup(row, "PIX") == Some(Text(f.chavePix))
    ensures Lookup(row, "Reservista Número") == Some(Text(reservista.num))
    ensures Lookup(row, "RA") == Some(Text(reservista.ra))
    ensures Lookup(row, "Categoria") == Some(Text(reservista.cat))
    ensures Lookup(row, "Data Envio") == Some(Moment(now))
  {
    EmployeeColumnsDistinct();
    LookupDistinct(row, 0); LookupDistinct(row, 1); LookupDistinct(row, 2); LookupDistinct(row, 3);
    LookupDistinct(row, 4); LookupDistinct(row, 5); LookupDistinct(row, 6); LookupDistinct(row, 7);
    LookupDistinct(row, 8); LookupDistinct(row, 9); LookupDistinct(row, 10); LookupDistinct(row, 11);
    LookupDistinct(row, 12); LookupDistinct(row, 13); LookupDistinct(row, 14); LookupDistinct(row, 15);
    LookupDistinct(row, 16); LookupDistinct(row, 17); LookupDistinct(row, 18); LookupDistinct(row, 19);
    LookupDistinct(row, 20); LookupDistinct(row, 21);
  }

  /** The save moment is the only input of the record that is not a form
      value: two records of one form differ at most in "Data Envio". */
  lemma OnlyTimestampVaries(f: AdmissionForm, reservista: ReservistaInput, t1: Timestamp, t2: Timestamp)
    ensures var r1, r2 := EmployeeRecord(f, reservista, t1), EmployeeRecord(f, reservista, t2);
      |r1| == |r2| &&
      forall k :: 0 <= k < |r1| && r1[k].0 != "Data Envio" ==> r1[k] == r2[k]
  {
  }
}
