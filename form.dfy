/** The values one run of the admission form script holds once every widget
    has been read, and the row shape the script hands to the spreadsheet
    writer: an ordered list of (column, value) pairs, one per dictionary key. */
module Form {
  import opened Wrappers

  /** An uploaded document: its original file name and its bytes. */
  datatype UploadedFile = UploadedFile(name: string, content: seq<bv8>)

  /** A file uploader's value: None when nothing was uploaded. */
  type Upload = Option<UploadedFile>

  /** The moment the submission is saved (the script reads the clock). */
  datatype Timestamp = Timestamp(micros: int)

  /** The three military-reserve inputs: certificate number, RA, category. */
  datatype ReservistaInput = ReservistaInput(num: string, ra: string, cat: string)

  /** What one dependent sub-form yields. */
  datatype DependentForm = DependentForm(
    nome: string,
    cpf: string,
    cpfAnexo: Upload,
    nasc: string,
    sexo: string,
    parentesco: string,
    filiacao: string,
    ir: string,
    salarioFamilia: string)

  /** Every widget value of the form. `reservistaInput` is what the three
      reserve inputs hold when they are shown; `dependentForms` are the
      dependent sub-forms on the page, `qtd` the chosen number of them. */
  datatype AdmissionForm = AdmissionForm(
    nome: string,
    cpf: string,
    cpfAnexo: Upload,
    dataNasc: string,
    sexo: string,
    estadoCivil: string,
    paisNasc: string,
    paisNacionalidade: string,
    raca: string,
    filiacao1: string,
    filiacao2: string,
    cep: string,
    logradouro: string,
    bairro: string,
    numero: string,
    celular: string,
    email: string,
    tipoConta: string,
    agencia: string,
    conta: string,
    chavePix: string,
    rg: Upload,
    ctps: Upload,
    reservistaInput: ReservistaInput,
    temDependente: string,
    qtd: int,
    dependentForms: seq<DependentForm>)

  /** What the page guarantees: the count input never goes below one, and
      one dependent sub-form is rendered per unit of it. */
  predicate WellFormed(f: AdmissionForm) {
    f.temDependente == "Sim" ==> 1 <= f.qtd && |f.dependentForms| == f.qtd
  }

  /** A spreadsheet cell: text, or the submission timestamp. */
  datatype Cell = Text(text: string) | Moment(at: Timestamp)

  /** One record as the ordered (column, value) pairs of a dictionary. */
  type Row = seq<(string, Cell)>

  function Keys(row: Row): seq<string> {
    seq(|row|, i requires 0 <= i < |row| => row[i].0)
  }

  predicate DistinctKeys(keys: seq<string>) {
    forall i, j :: 0 <= i < j < |keys| ==> keys[i] != keys[j]
  }

  /** Dictionary lookup: the value under this key. It is used only on rows
      whose keys are distinct, as a dictionary's are. */
  function Lookup(row: Row, key: string): Option<Cell> {
    if row == [] then None
    else if row[0].0 == key then Some(row[0].1)
    else Lookup(row[1..], key)
  }

  /** When no earlier column has the same name, the i-th column's lookup
      yields the i-th value. */
  lemma {:induction false} LookupAt(row: Row, i: nat)
    requires i < |row|
    requires forall j :: 0 <= j < i ==> row[j].0 != row[i].0
    ensures Lookup(row, row[i].0) == Some(row[i].1)
  {
    if i > 0 {
      assert row[0].0 != row[i].0;
      LookupAt(row[1..], i - 1);
    }
  }

  /** In a row without repeated columns, every column's lookup yields its
      own value. */
  lemma LookupDistinct(row: Row, i: nat)
    requires DistinctKeys(Keys(row)) && i < |row|
    ensures Lookup(row, row[i].0) == Some(row[i].1)
  {
    forall j | 0 <= j < i ensures row[j].0 != row[i].0 {
      assert Keys(row)[j] != Keys(row)[i];
    }
    LookupAt(row, i);
  }

  /** A column the row does not have is looked up as None. */
  lemma {:induction false} LookupAbsent(row: Row, key: string)
    requires key !in Keys(row)
    ensures Lookup(row, key) == None
  {
    if row != [] {
      assert Keys(row)[0] == row[0].0;
      assert Keys(row[1..]) == Keys(row)[1..];
      LookupAbsent(row[1..], key);
    }
  }
}
