# Admission form: submission logic

A model of the logic inside the employee admission form ("Formulário de
Admissão") of `app.py`, a single Streamlit page. Apart from widget
declarations, the page does four things, and the model covers all four:

- **Gate.** When "Enviar Admissão" is pressed, the page first checks a fixed
  list of 21 required values. An empty text or a missing upload rejects the
  form as incomplete. Only a complete form reaches the CPF checksum, which
  rejects an invalid CPF. Anything else is accepted (`Gate`).
- **Reservista.** The three military-reserve values are blank unless the
  declared sex is "Masculino" (`Reservista`).
- **Dependents.** One eight-column record is appended per dependent
  sub-form, in order. The list is empty when the answer is "Não"
  (`Dependents`).
- **Saving.** On acceptance the page writes:
  - the folder `data/admissoes/<cpf>`;
  - the three documents as `CPF.pdf`, `RG.pdf` and `CTPS.pdf`;
  - the one-row employee sheet `dados_admissao.xlsx` with 22 fixed columns;
  - `dependentes.xlsx`, only when there are dependents.

  These are modelled as a list of actions: `MakeDir` and `WriteFile`
  (`EmployeeRow`, `SavePlan`).

`Submission` puts the pieces together. `Submit` is the button's branch, and
`RunScript` is one whole run of the page.

The CPF checksum comes from the `validate_docbr` library, so it is a
parameter `cpfValid: string -> bool`. The clock reading `datetime.now()` is
also a parameter, `now: Timestamp`. An upload is `Option<UploadedFile>`,
where `None` means nothing was uploaded.

A row is an ordered list of (column, value) pairs, the way the source's
dictionaries keep their keys. `Lookup` is dictionary lookup on such a row;
it is used only on rows whose column names are distinct.

Notes on the code's behaviour:

- The reserve fields are never required, even for "Masculino".
- Dependent sub-forms are not validated at all.
- Documents are saved under fixed `.pdf` names whatever their original name
  or extension.
- There is no archive and no e-mail in this file.

## Model

| member | source | states |
|---|---|---|
| Gate.Decide | app.py:119-130 | Outcome is MissingFields iff one of the 21 required values (name, CPF, CPF upload, birth date, sex, marital status, birth country, nationality, race, filiação 1, CEP, street, neighbourhood, number, mobile, e-mail, account type, agency, account, RG upload, CTPS upload) is empty or absent; InvalidCpf iff all are present and the checksum refuses the CPF; Accepted iff all are present and it accepts |
| Gate.CpfIgnoredWhenIncomplete | app.py:126-129 | An incomplete form is MissingFields whatever the checksum says, because the checksum is only consulted after the required-field check |
| Gate.CpfDecidesWhenComplete | app.py:128-130 | On a complete form the outcome is Accepted when the checksum accepts the CPF and InvalidCpf otherwise |
| Gate.OptionalFieldsNeverReject | app.py:120-126 | Changing filiação 2, the PIX key, the reserve inputs or the dependents section never changes the decision |
| Reservista.ReservistaValues | app.py:73-79 | The reserve number, RA and category are the typed values when sex is "Masculino" and all blank otherwise |
| Reservista.NonBlankOnlyForMale | app.py:73-79 | Non-blank reserve values imply sex "Masculino" and are exactly the typed values |
| Dependents.DependentRow | app.py:105-114 | A dependent's record has exactly the columns Nome, CPF, Nascimento, Sexo, Parentesco, Filiação, IR, Salário Família, in that order, all text |
| Dependents.DependentRowValues | app.py:95-114 | Each of the eight columns looks up to the matching sub-form value, the column names are distinct, and any other column (an attachment column among them) is absent |
| Dependents.RowIgnoresAttachment | app.py:97-114 | The record is the same whatever the dependent's uploaded CPF document is, so the upload is never stored |
| Dependents.CollectDependents | app.py:88-114 | The loop yields [] unless the answer is "Sim", otherwise exactly qtd records whose i-th is the record of the i-th sub-form |
| EmployeeRow.EmployeeRecord | app.py:143-166 | The employee record's columns are exactly the 22 listed names in the listed order |
| EmployeeRow.EmployeeColumnsDistinct | app.py:143-166 | The 22 column names are pairwise distinct |
| EmployeeRow.EmployeeRecordColumns | app.py:143-166 | Each of the 22 columns holds its value: Nome to PIX the matching form field (Filiação 2 and PIX included); "Endereço" holds logradouro + ", " + numero + " - " + bairro; the reserve columns hold the reserve values in force; "Data Envio" holds the supplied timestamp |
| EmployeeRow.AddressParts | app.py:154 | The composed address is the street, ", ", the number, " - ", the neighbourhood, in that order and nothing else |
| EmployeeRow.OnlyTimestampVaries | app.py:143-166 | Two records of the same form taken at different moments agree on every column except "Data Envio" |
| SavePlan.WriteUploads | app.py:135-141 | The save loop writes one file per (document, name) pair, in order, at folder/name with the document's bytes |
| SavePlan.FilePathInjective | app.py:131-141 | Different file names in one folder are different paths |
| SavePlan.FoldersSeparate | app.py:131-140 | With file names free of "/", as the plan's are, two paths are equal as strings iff they come from the same CPF and the same file name, so submissions with different CPFs never write the same path string |
| SavePlan.Plan | app.py:131-171 | The accepted branch's actions: the folder data/admissoes/<cpf> is created first, and every later action writes a file, five with dependents and four without; PlanDocuments, PlanSheets and PlanStaysInFolder state which files and what they hold |
| SavePlan.PlanDocuments | app.py:131-141 | The plan first creates data/admissoes/<cpf>, then writes CPF.pdf, RG.pdf and CTPS.pdf there with the CPF, RG and CTPS upload bytes; renaming the uploads changes nothing |
| SavePlan.PlanSheets | app.py:168-171 | dados_admissao.xlsx with the single employee record is always written; dependentes.xlsx is written iff the dependent list is non-empty, and then holds the whole list |
| SavePlan.PlanStaysInFolder | app.py:131-171 | Every written path lies under the submission folder, and no path is written twice |
| Submission.Submit | app.py:119-171 | The outcome is the gate's decision; a rejected form produces no action; an accepted one produces exactly the save plan of its employee record and dependent list |
| Submission.RunScript | app.py:73-171 | A run without the button pressed decides nothing and saves nothing; with it pressed, the outcome is the gate's decision and the actions are those of the reserve values and dependent list the page computed |
| Submission.RunSaves | app.py:73-171 | A run saves something iff the button is pressed, the form is complete and the CPF passes the checksum; then the employee sheet holds the composed address and blank reserve values for a non-male form, and dependentes.xlsx is written iff "Sim" was answered, holding one record per sub-form in order |

## Left out

- Streamlit rendering is not modelled: titles, headers, widget keys, file-type filters and the success and error banners. The banners appear only as the `Outcome` tags.
- The CPF checksum comes from `validate_docbr`, an external library. It is the parameter `cpfValid`.
- `datetime.now()` reads the clock. It is the parameter `now`.
- The file system is not modelled: `os.makedirs`, `open`/`write` and `getbuffer`. The model produces the list of actions they would perform. This includes the unconditional `os.makedirs(BASE_PATH)` at start-up (app.py:12), which creates the base folder on every run and is not part of the submission.
- pandas and Excel serialisation are not modelled. A sheet is the list of its records, each an ordered list of (column, value) pairs. The header row and `index=False` are not represented.
- The numeric type of the dependent count is not modelled. `int(qtd)` is taken to be an integer of at least 1, which the widget's `min_value=1, step=1` guarantees; this is the `WellFormed` requirement.
- A zip archive, per-dependent document paths and an e-mail dispatch are not modelled. app.py has no code for any of them.
