/** What an accepted submission leaves on disk, as a list of actions rather
    than file-system calls: the folder keyed by CPF, the three documents
    under fixed names, the employee sheet, and the dependents sheet when
    there are dependents. */
module SavePlan {
  import opened Wrappers
  import opened Form
  import opened Gate

  const BasePath: string := "data/admissoes"

  /** What a written file holds: an upload's bytes, or a sheet of records. */
  datatype Content = Bytes(data: seq<bv8>) | Sheet(rows: seq<Row>)

  datatype Action = MakeDir(path: string) | WriteFile(path: string, content: Content)

  /** The folder of a submission. */
  function Folder(cpf: string): string {
    BasePath + "/" + cpf
  }

  /** The path of a file inside a folder. */
  function FilePath(folder: string, name: string): string {
    folder + "/" + name
  }

  /** Two different names in one folder are two different paths. */
  lemma {:induction false} FilePathInjective(folder: string, a: string, b: string)
    requires a != b
    ensures FilePath(folder, a) != FilePath(folder, b)
  {
    var n := |folder| + 1;
    assert FilePath(folder, a)[n..] == a;
    assert FilePath(folder, b)[n..] == b;
  }

  /** The path of a document names its submission and its file: with file
      names free of '/', as the plan's are, equal paths come from the same
      CPF and the same name. Paths are compared as strings; "." and ".."
      segments that a file system would resolve are not. */
  lemma {:induction false} FoldersSeparate(cpf1: string, cpf2: string, a: string, b: string)
    requires '/' !in a && '/' !in b
    ensures FilePath(Folder(cpf1), a) == FilePath(Folder(cpf2), b) <==> cpf1 == cpf2 && a == b
  {
    var x1, x2 := Folder(cpf1), Folder(cpf2);
    var p, q := FilePath(x1, a), FilePath(x2, b);
    if p == q {
      SeparatorAt(x1, a);
      SeparatorAt(x2, b);
      if |a| < |b| {
        assert false;
      } else if |b| < |a| {
        assert false;
      }
      assert x1 == p[..|x1|] == q[..|x2|] == x2;
      assert cpf1 == x1[|BasePath| + 1..] == x2[|BasePath| + 1..] == cpf2;
    }
  }

  /** A path is its folder, a '/' and its name. */
  lemma SeparatorAt(folder: string, name: string)
    ensures var p := FilePath(folder, name);
      |p| == |folder| + 1 + |name| && p[..|folder|] == folder &&
      p[|folder|] == '/' && p[|folder| + 1..] == name
  {
  }

  /** The loop that writes the uploaded documents: one file per
      (document, name) pair, in order, holding the document's bytes under
      the given name whatever the upload was called. */
  method WriteUploads(folder: string, uploads: seq<(UploadedFile, string)>)
    returns (writes: seq<Action>)
    ensures |writes| == |uploads|
    ensures forall i :: 0 <= i < |uploads| ==>
      writes[i] == WriteFile(FilePath(folder, uploads[i].1), Bytes(uploads[i].0.content))
  {
    writes := [];
    for i := 0 to |uploads|
      invariant |writes| == i
      invariant forall k :: 0 <= k < i ==>
        writes[k] == WriteFile(FilePath(folder, uploads[k].1), Bytes(uploads[k].0.content))
    {
      var (arq, nomeArq) := uploads[i];
      writes := writes + [WriteFile(FilePath(folder, nomeArq), Bytes(arq.content))];
    }
  }

  /** The save plan of an accepted form, given its employee record and its
      list of dependent records: the folder is created first, and every
      later action writes one file, five of them with dependents and four
      without. */
  function Plan(f: AdmissionForm, employee: Row, dependentes: seq<Row>): (p: seq<Action>)
    requires AllRequiredPresent(f)
    ensures |p| == if dependentes == [] then 5 else 6
    ensures p[0] == MakeDir(Folder(f.cpf))
    ensures forall k :: 1 <= k < |p| ==> p[k].WriteFile?
  {
    var pasta := Folder(f.cpf);
    [ MakeDir(pasta),
      WriteFile(FilePath(pasta, "CPF.pdf"), Bytes(f.cpfAnexo.value.content)),
      WriteFile(FilePath(pasta, "RG.pdf"), Bytes(f.rg.value.content)),
      WriteFile(FilePath(pasta, "CTPS.pdf"), Bytes(f.ctps.value.content)),
      WriteFile(FilePath(pasta, "dados_admissao.xlsx"), Sheet([employee])) ]
    + (if dependentes != [] then [WriteFile(FilePath(pasta, "dependentes.xlsx"), Sheet(dependentes))] else [])
  }

  /** The documents: the folder is created first, then CPF.pdf, RG.pdf and
      CTPS.pdf are written in that order with the bytes of the CPF, RG and
      CTPS uploads; the names do not depend on what the uploads were called. */
  lemma PlanDocuments(f: AdmissionForm, employee: Row, dependentes: seq<Row>)
    requires AllRequiredPresent(f)
    ensures var p, pasta := Plan(f, employee, dependentes), Folder(f.cpf);
      |p| >= 5 &&
      p[0] == MakeDir(BasePath + "/" + f.cpf) &&
      p[1] == WriteFile(pasta + "/CPF.pdf", Bytes(f.cpfAnexo.value.content)) &&
      p[2] == WriteFile(pasta + "/RG.pdf", Bytes(f.rg.value.content)) &&
      p[3] == WriteFile(pasta + "/CTPS.pdf", Bytes(f.ctps.value.content))
    ensures forall a, b, c :: Plan(f.(cpfAnexo := Some(f.cpfAnexo.value.(name := a)),
                                        rg := Some(f.rg.value.(name := b)),
                                        ctps := Some(f.ctps.value.(name := c))),
                                   employee, dependentes)
                            == Plan(f, employee, dependentes)
  {
    assert FilePath(Folder(f.cpf), "CPF.pdf") == Folder(f.cpf) + "/CPF.pdf";
    assert FilePath(Folder(f.cpf), "RG.pdf") == Folder(f.cpf) + "/RG.pdf";
    assert FilePath(Folder(f.cpf), "CTPS.pdf") == Folder(f.cpf) + "/CTPS.pdf";
  }

  /** The sheets: dados_admissao.xlsx always holds the one employee record;
      dependentes.xlsx is written if and only if there are dependents, and
      then holds them all. */
  lemma PlanSheets(f: AdmissionForm, employee: Row, dependentes: seq<Row>)
    requires AllRequiredPresent(f)
    ensures WriteFile(FilePath(Folder(f.cpf), "dados_admissao.xlsx"), Sheet([employee]))
            in Plan(f, employee, dependentes)
    ensures (exists a :: a in Plan(f, employee, dependentes) &&
                         a.WriteFile? && a.path == FilePath(Folder(f.cpf), "dependentes.xlsx"))
            <==> dependentes != []
    ensures dependentes != [] ==>
      WriteFile(FilePath(Folder(f.cpf), "dependentes.xlsx"), Sheet(dependentes))
        in Plan(f, employee, dependentes)
  {
    var p, pasta := Plan(f, employee, dependentes), Folder(f.cpf);
    var dep := FilePath(pasta, "dependentes.xlsx");
    assert p[4] == WriteFile(FilePath(pasta, "dados_admissao.xlsx"), Sheet([employee]));
    if dependentes == [] {
      FilePathInjective(pasta, "CPF.pdf", "dependentes.xlsx");
      FilePathInjective(pasta, "RG.pdf", "dependentes.xlsx");
      FilePathInjective(pasta, "CTPS.pdf", "dependentes.xlsx");
      FilePathInjective(pasta, "dados_admissao.xlsx", "dependentes.xlsx");
      forall a | a in p && a.WriteFile? ensures a.path != dep {
        var k :| 0 <= k < |p| && p[k] == a;
      }
    } else {
      assert p[5] == WriteFile(dep, Sheet(dependentes));
    }
  }

  /** Everything the plan creates lies in the submission's folder, and no
      file is written twice. */
  lemma PlanStaysInFolder(f: AdmissionForm, employee: Row, dependentes: seq<Row>)
    requires AllRequiredPresent(f)
    ensures var p, pasta := Plan(f, employee, dependentes), Folder(f.cpf);
      forall k :: 0 <= k < |p| && p[k].WriteFile? ==>
        |p[k].path| > |pasta| + 1 && p[k].path[..|pasta| + 1] == pasta + "/"
    ensures var p := Plan(f, employee, dependentes);
      forall j, k :: 0 <= j < k < |p| && p[j].WriteFile? && p[k].WriteFile? ==> p[j].path != p[k].path
  {
    var p, pasta := Plan(f, employee, dependentes), Folder(f.cpf);
    var names := ["CPF.pdf", "RG.pdf", "CTPS.pdf", "dados_admissao.xlsx", "dependentes.xlsx"];
    forall k | 0 <= k < |p| && p[k].WriteFile?
      ensures p[k].path == FilePath(pasta, names[k - 1])
    {
    }
    forall j, k | 0 <= j < k < |p| && p[j].WriteFile? && p[k].WriteFile?
      ensures p[j].path != p[k].path
    {
      FilePathInjective(pasta, names[j - 1], names[k - 1]);
    }
  }
}
