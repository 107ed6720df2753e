/**
 * The method collector: printParameters and parseDeclarations as functions
 * of the declarations of one file and of the methods collected so far.
 */
module Collector {
  import opened Outcomes
  import opened Runes
  import opened Qualifier
  import opened Declarations

  /** One line of the interface body and the doc lines above it. */
  datatype Method = Method(code: string, docs: seq<string>)

  /** Which part of a field could not be printed. */
  datatype FieldPart = NamePart | TypePart

  /** A printing failure, in the parameters or in the results. */
  datatype RenderError = RenderError(inResults: bool, part: FieldPart)

  /** The Maker settings the collector reads. */
  datatype Config = Config(structName: string, copyDocs: bool, srcPackage: string)

  /** The collected methods; `keys[i]` is the name of `methods[i]` (methodNames holds the keys). */
  datatype Collection = Collection(keys: seq<string>, methods: seq<Method>)

  /** What a run over a file's declarations leaves behind. */
  datatype Collected = Collected(col: Collection, hasMethods: bool, failure: Option<RenderError>)

  function TextOf(p: Printed): string {
    if p.Text? then p.text else ""
  }

  /** The printed texts of a field's names. */
  function NameTexts(names: seq<Printed>): (r: seq<string>)
    ensures |r| == |names|
  {
    if names == [] then [] else NameTexts(names[..|names| - 1]) + [TextOf(names[|names| - 1])]
  }

  /** The failure, if any, met while printing a field: its names first, then its type. */
  function FieldFailure(f: Field): Option<FieldPart>
  {
    if exists j | 0 <= j < |f.names| :: f.names[j].Unprintable? then Some(NamePart)
    else if f.typ.Unprintable? then Some(TypePart)
    else None
  }

  /** The failure of the first field that fails. */
  function FirstFailure(fields: seq<Field>): Option<FieldPart>
  {
    if fields == [] then None
    else
      var before := FirstFailure(fields[..|fields| - 1]);
      if before.Some? then before else FieldFailure(fields[|fields| - 1])
  }

  /** A field as printed: the names joined by commas and a space, then the qualified type. */
  function FieldText(qualifier: string, f: Field): string
  {
    (if f.names == [] then "" else Join(",", NameTexts(f.names)) + " ")
    + Qualify(qualifier, TextOf(f.typ))
  }

  function FieldTexts(qualifier: string, fields: seq<Field>): (r: seq<string>)
    ensures |r| == |fields|
  {
    if fields == [] then []
    else FieldTexts(qualifier, fields[..|fields| - 1]) + [FieldText(qualifier, fields[|fields| - 1])]
  }

  /** What printParameters promises: the fields joined by commas, or the first failure. */
  function PrintedParams(qualifier: string, fields: seq<Field>): Result<string, FieldPart>
  {
    match FirstFailure(fields)
    case Some(part) => Failure(part)
    case None => Success(Join(",", FieldTexts(qualifier, fields)))
  }

  /** Once a prefix of the fields fails, the whole list fails the same way. */
  lemma {:induction false} FirstFailureOfPrefix(fields: seq<Field>, k: nat)
    requires k <= |fields|
    requires FirstFailure(fields[..k]).Some?
    ensures FirstFailure(fields) == FirstFailure(fields[..k])
    decreases |fields| - k
  {
    if k < |fields| {
      assert fields[..k + 1][..k] == fields[..k];
      FirstFailureOfPrefix(fields, k + 1);
    } else {
      assert fields[..k] == fields;
    }
  }

  /**
   * The rendering of one method: `name(params) (results)`, with the doc lines
   * when docs are copied; the parameters are printed before the results.
   */
  function RenderMethod(cfg: Config, fd: FuncDecl): (r: Result<Method, RenderError>)
    ensures r.Success? <==> FirstFailure(fd.params).None? && FirstFailure(fd.results).None?
    ensures r.Failure? ==> (r.error.inResults <==> FirstFailure(fd.params).None?)
    ensures r.Failure? && !r.error.inResults ==> Some(r.error.part) == FirstFailure(fd.params)
    ensures r.Failure? && r.error.inResults ==> Some(r.error.part) == FirstFailure(fd.results)
    ensures r.Success? ==> fd.name + "(" <= r.value.code
    ensures r.Success? ==> r.value.code == fd.name + "(" + PrintedParams(cfg.srcPackage, fd.params).value
                                           + ") (" + PrintedParams(cfg.srcPackage, fd.results).value + ")"
    ensures r.Success? ==> r.value.docs == if cfg.copyDocs then fd.doc else []
  {
    match PrintedParams(cfg.srcPackage, fd.params)
    case Failure(part) => Failure(RenderError(false, part))
    case Success(params) =>
      match PrintedParams(cfg.srcPackage, fd.results)
      case Failure(part) => Failure(RenderError(true, part))
      case Success(ret) =>
        var code := fd.name + "(" + params + ") (" + ret + ")";
        assert code == (fd.name + "(") + (params + ") (" + ret + ")");
        Success(Method(code, if cfg.copyDocs then fd.doc else []))
  }

  /** At most one method per name, each code line starting with its name. */
  ghost predicate WellFormed(col: Collection) {
    && |col.keys| == |col.methods|
    && (forall i, j | 0 <= i < j < |col.keys| :: col.keys[i] != col.keys[j])
    && (forall i | 0 <= i < |col.keys| :: col.keys[i] + "(" <= col.methods[i].code)
  }

  function Touch(c: Collected): Collected {
    c.(hasMethods := true)
  }

  /** How one method declaration is rendered; the lemmas below hold for any rendering. */
  type Renderer = FuncDecl -> Result<Method, RenderError>

  /** Every rendered code line starts with the method's name and "(". */
  ghost predicate NamePrefixed(render: Renderer) {
    forall fd: FuncDecl :: render(fd).Success? ==> fd.name + "(" <= render(fd).value.code
  }

  /** The rendering parseDeclarations uses: RenderMethod under the Maker's settings. */
  function RenderWith(cfg: Config): (render: Renderer)
    ensures NamePrefixed(render)
  {
    fd => RenderMethod(cfg, fd)
  }

  /**
   * The loop of parseDeclarations over the declarations of one file, for a
   * given rendering: skip what Select rejects, note that the file has a
   * method, skip names already collected, and stop at the first failure.
   */
  function Collect(structName: string, render: Renderer, col: Collection, decls: seq<Decl>): Collected
    decreases |decls|
  {
    if decls == [] then Collected(col, false, None)
    else match Select(structName, decls[0])
      case None => Collect(structName, render, col, decls[1..])
      case Some(fd) =>
        if fd.name in col.keys then Touch(Collect(structName, render, col, decls[1..]))
        else match render(fd)
          case Failure(e) => Collected(col, true, Some(e))
          case Success(m) =>
            Touch(Collect(structName, render, Collection(col.keys + [fd.name], col.methods + [m]), decls[1..]))
  }

  /** parseDeclarations on one file under the Maker's settings. */
  function CollectDecls(cfg: Config, col: Collection, decls: seq<Decl>): Collected
  {
    Collect(cfg.structName, RenderWith(cfg), col, decls)
  }

  /** The exported methods of the struct among `decls`, in order. */
  function Candidates(structName: string, decls: seq<Decl>): seq<FuncDecl>
  {
    if decls == [] then []
    else match Select(structName, decls[0])
      case Some(fd) => [fd] + Candidates(structName, decls[1..])
      case None => Candidates(structName, decls[1..])
  }

  /** The declarations whose name is seen for the first time, in first-seen order. */
  function NewDecls(seen: seq<string>, fds: seq<FuncDecl>): seq<FuncDecl>
    decreases |fds|
  {
    if fds == [] then []
    else if fds[0].name in seen then NewDecls(seen, fds[1..])
    else [fds[0]] + NewDecls(seen + [fds[0].name], fds[1..])
  }

  function NamesOf(fds: seq<FuncDecl>): (r: seq<string>)
    ensures |r| == |fds|
  {
    if fds == [] then [] else [fds[0].name] + NamesOf(fds[1..])
  }

  /** Collecting keeps the collection well formed and only appends to it. */
  lemma {:induction false} CollectWellFormed(structName: string, render: Renderer, col: Collection, decls: seq<Decl>)
    requires WellFormed(col) && NamePrefixed(render)
    ensures var r := Collect(structName, render, col, decls);
      WellFormed(r.col) && col.keys <= r.col.keys && col.methods <= r.col.methods
    decreases |decls|
  {
    if decls != [] {
      match Select(structName, decls[0])
      case None => CollectWellFormed(structName, render, col, decls[1..]);
      case Some(fd) =>
        if fd.name in col.keys {
          CollectWellFormed(structName, render, col, decls[1..]);
        } else {
          match render(fd)
          case Failure(e) =>
          case Success(m) =>
            var col' := Collection(col.keys + [fd.name], col.methods + [m]);
            AddKeepsWellFormed(col, fd.name, m);
            CollectWellFormed(structName, render, col', decls[1..]);
        }
    }
  }

  /** A file "has methods" exactly when it holds an exported method of the struct, duplicate or not. */
  lemma {:induction false} HasMethodsIff(structName: string, render: Renderer, col: Collection, decls: seq<Decl>)
    ensures Collect(structName, render, col, decls).hasMethods
        <==> exists i | 0 <= i < |decls| :: Select(structName, decls[i]).Some?
    decreases |decls|
  {
    if decls != [] {
      match Select(structName, decls[0])
      case None =>
        HasMethodsIff(structName, render, col, decls[1..]);
        if exists i | 0 <= i < |decls| :: Select(structName, decls[i]).Some? {
          var i :| 0 <= i < |decls| && Select(structName, decls[i]).Some?;
          assert decls[1..][i - 1] == decls[i];
        }
      case Some(fd) =>
        assert Select(structName, decls[0]).Some?;
    }
  }

  /** The rendering of each declaration, in order (an empty method where rendering fails). */
  function Renderings(render: Renderer, nd: seq<FuncDecl>): (ms: seq<Method>)
    ensures |ms| == |nd|
  {
    if nd == [] then []
    else
      var m := match render(nd[0]) case Success(m) => m case Failure(_) => Method("", []);
      [m] + Renderings(render, nd[1..])
  }

  /** Every declaration of `nd` renders. */
  predicate AllRender(render: Renderer, nd: seq<FuncDecl>) {
    forall j | 0 <= j < |nd| :: render(nd[j]).Success?
  }

  /** Where every declaration renders, entry j of Renderings is the rendering of declaration j. */
  lemma {:induction false} RenderingsAt(render: Renderer, nd: seq<FuncDecl>, j: nat)
    requires j < |nd| && render(nd[j]).Success?
    ensures render(nd[j]) == Success(Renderings(render, nd)[j])
    decreases j
  {
    if j > 0 {
      assert nd[1..][j - 1] == nd[j];
      RenderingsAt(render, nd[1..], j - 1);
    }
  }

  /** What the collector leaves behind when no rendering fails: the new methods in first-seen order. */
  predicate FirstSeen(structName: string, render: Renderer, col: Collection, decls: seq<Decl>, r: Collected) {
    var nd := NewDecls(col.keys, Candidates(structName, decls));
    r.failure.None? ==>
      && r.col.keys == col.keys + NamesOf(nd)
      && r.col.methods == col.methods + Renderings(render, nd)
      && AllRender(render, nd)
  }

  /**
   * Without a printing failure, the collector appends the first declaration of
   * every new method name, in first-seen order, with its rendering.
   */
  lemma {:induction false} CollectFirstSeen(structName: string, render: Renderer, col: Collection, decls: seq<Decl>)
    ensures var r := Collect(structName, render, col, decls);
      var nd := NewDecls(col.keys, Candidates(structName, decls));
      r.failure.None? ==>
        && r.col.keys == col.keys + NamesOf(nd)
        && r.col.methods == col.methods + Renderings(render, nd)
        && AllRender(render, nd)
    decreases |decls|, 1
  {
    if decls != [] {
      match Select(structName, decls[0])
      case None =>
        CollectFirstSeen(structName, render, col, decls[1..]);
      case Some(fd) =>
        if fd.name in col.keys {
          CollectFirstSeen(structName, render, col, decls[1..]);
        } else {
          FirstSeenNew(structName, render, col, decls, fd);
        }
    }
  }

  /** The step of CollectFirstSeen where the first declaration is a method with a new name. */
  lemma {:induction false} FirstSeenNew(structName: string, render: Renderer, col: Collection, decls: seq<Decl>, fd: FuncDecl)
    requires decls != [] && Select(structName, decls[0]) == Some(fd) && fd.name !in col.keys
    ensures FirstSeen(structName, render, col, decls, Collect(structName, render, col, decls))
    decreases |decls|, 0
  {
    match render(fd)
    case Failure(e) =>
    case Success(m) =>
      var col' := Collection(col.keys + [fd.name], col.methods + [m]);
      var r' := Collect(structName, render, col', decls[1..]);
      CollectFirstSeen(structName, render, col', decls[1..]);
      if r'.failure.None? {
        var later := Candidates(structName, decls[1..]);
        var rest := NewDecls(col'.keys, later);
        assert NewDecls(col.keys, [fd] + later) == [fd] + rest by {
          assert ([fd] + later)[0] == fd && ([fd] + later)[1..] == later;
        }
        var nd := [fd] + rest;
        assert nd[1..] == rest;
        assert NamesOf(nd) == [fd.name] + NamesOf(rest);
        assert Renderings(render, nd) == [m] + Renderings(render, rest);
        forall j | 0 < j < |nd|
          ensures render(nd[j]).Success?
        {
          assert nd[j] == rest[j - 1];
        }
      }
  }

  /**
   * Collecting two files one after the other collects the same methods as
   * collecting their declarations in one run.
   */
  lemma {:induction false} CollectAppend(structName: string, render: Renderer, col: Collection, a: seq<Decl>, b: seq<Decl>)
    requires Collect(structName, render, col, a).failure.None?
    ensures var ra := Collect(structName, render, col, a);
      var rb := Collect(structName, render, ra.col, b);
      Collect(structName, render, col, a + b) == rb.(hasMethods := ra.hasMethods || rb.hasMethods)
    decreases |a|
  {
    if a == [] {
      assert a + b == b;
    } else {
      assert (a + b)[0] == a[0];
      assert (a + b)[1..] == a[1..] + b;
      match Select(structName, a[0])
      case None => CollectAppend(structName, render, col, a[1..], b);
      case Some(fd) =>
        if fd.name in col.keys {
          CollectAppend(structName, render, col, a[1..], b);
        } else {
          match render(fd)
          case Failure(e) =>
          case Success(m) =>
            CollectAppend(structName, render, Collection(col.keys + [fd.name], col.methods + [m]), a[1..], b);
        }
    }
  }

  /** A file without an exported method of the struct changes nothing and has no methods. */
  lemma {:induction false} NoCandidatesNoChange(structName: string, render: Renderer, col: Collection, decls: seq<Decl>)
    requires forall i | 0 <= i < |decls| :: Select(structName, decls[i]).None?
    ensures Collect(structName, render, col, decls) == Collected(col, false, None)
    decreases |decls|
  {
    if decls != [] {
      assert Select(structName, decls[0]).None?;
      forall i | 0 <= i < |decls[1..]|
        ensures Select(structName, decls[1..][i]).None?
      {
        assert decls[1..][i] == decls[i + 1];
      }
      NoCandidatesNoChange(structName, render, col, decls[1..]);
    }
  }

  lemma NameTextsSnoc(names: seq<Printed>, i: nat)
    requires i < |names|
    ensures NameTexts(names[..i + 1]) == NameTexts(names[..i]) + [TextOf(names[i])]
  {
    assert names[..i + 1][..i] == names[..i];
  }

  lemma FieldsSnoc(qualifier: string, fields: seq<Field>, i: nat)
    requires i < |fields|
    ensures FieldTexts(qualifier, fields[..i + 1]) == FieldTexts(qualifier, fields[..i]) + [FieldText(qualifier, fields[i])]
    ensures FirstFailure(fields[..i]).None? ==> FirstFailure(fields[..i + 1]) == FieldFailure(fields[i])
  {
    assert fields[..i + 1][..i] == fields[..i];
  }

  /** Adding a method under a new name that starts its code keeps the collection well formed. */
  lemma AddKeepsWellFormed(col: Collection, name: string, m: Method)
    requires WellFormed(col)
    requires name !in col.keys
    requires name + "(" <= m.code
    ensures WellFormed(Collection(col.keys + [name], col.methods + [m]))
  {
  }

  /** What printParameters has written after the first i names of a field. */
  function NamesSoFar(names: seq<Printed>, i: nat): string
    requires i <= |names|
  {
    Join(",", NameTexts(names[..i])) + (if i == 0 then "" else if i < |names| then "," else " ")
  }

  lemma NamesSoFarStart(names: seq<Printed>)
    ensures NamesSoFar(names, 0) == ""
  {
    assert names[..0] == [];
  }

  lemma NamesSoFarStep(names: seq<Printed>, i: nat)
    requires i < |names| && names[i].Text?
    ensures NamesSoFar(names, i + 1)
         == NamesSoFar(names, i) + names[i].text + (if i < |names| - 1 then "," else " ")
  {
    NameTextsSnoc(names, i);
    JoinSnoc(",", NameTexts(names[..i]), names[i].text);
  }

  lemma NamesSoFarDone(qualifier: string, f: Field)
    ensures NamesSoFar(f.names, |f.names|) + Qualify(qualifier, TextOf(f.typ)) == FieldText(qualifier, f)
  {
    assert f.names[..|f.names|] == f.names;
  }

  /** What printParameters has written after the first ii fields. */
  function FieldsSoFar(qualifier: string, fields: seq<Field>, ii: nat): string
    requires ii <= |fields|
  {
    Join(",", FieldTexts(qualifier, fields[..ii])) + (if 0 < ii < |fields| then "," else "")
  }

  lemma FieldsSoFarStart(qualifier: string, fields: seq<Field>)
    ensures FieldsSoFar(qualifier, fields, 0) == "" && FirstFailure(fields[..0]).None?
  {
    assert fields[..0] == [];
  }

  lemma FieldsSoFarStep(qualifier: string, fields: seq<Field>, ii: nat)
    requires ii < |fields|
    ensures FieldsSoFar(qualifier, fields, ii + 1)
         == FieldsSoFar(qualifier, fields, ii) + FieldText(qualifier, fields[ii])
            + (if ii < |fields| - 1 then "," else "")
  {
    FieldsSnoc(qualifier, fields, ii);
    JoinedSoFarStep(FieldTexts(qualifier, fields[..ii]), FieldText(qualifier, fields[ii]), |fields|);
  }

  /** The comma-joined text of the first parts of n, with the comma that follows unless all n are in. */
  lemma JoinedSoFarStep(done: seq<string>, text: string, n: nat)
    requires |done| < n
    ensures Join(",", done + [text]) + (if 0 < |done| + 1 < n then "," else "")
         == Join(",", done) + (if 0 < |done| < n then "," else "") + text + (if |done| < n - 1 then "," else "")
  {
    JoinSnoc(",", done, text);
  }

  lemma FieldsSoFarDone(qualifier: string, fields: seq<Field>)
    requires FirstFailure(fields[..|fields|]).None?
    ensures PrintedParams(qualifier, fields) == Success(FieldsSoFar(qualifier, fields, |fields|))
  {
    assert fields[..|fields|] == fields;
    assert FirstFailure(fields).None?;
    assert FieldsSoFar(qualifier, fields, |fields|) == Join(",", FieldTexts(qualifier, fields));
  }

  /** One more field printed: its names, its qualified type and, unless it is the last, a comma. */
  lemma FieldsSoFarNext(qualifier: string, fields: seq<Field>, ii: nat, names: string, typ: string)
    requires ii < |fields|
    requires FirstFailure(fields[..ii]).None? && FieldFailure(fields[ii]).None?
    requires names == NamesSoFar(fields[ii].names, |fields[ii].names|)
    requires typ == Qualify(qualifier, TextOf(fields[ii].typ))
    ensures FirstFailure(fields[..ii + 1]).None?
    ensures FieldsSoFar(qualifier, fields, ii + 1)
         == FieldsSoFar(qualifier, fields, ii) + names + typ + (if ii < |fields| - 1 then "," else "")
  {
    var prev := FieldsSoFar(qualifier, fields, ii);
    var text := FieldText(qualifier, fields[ii]);
    NamesSoFarDone(qualifier, fields[ii]);
    assert text == names + typ;
    FieldsSoFarStep(qualifier, fields, ii);
    FieldsSnoc(qualifier, fields, ii);
    assert prev + text == prev + names + typ;
  }

  /** A failure in field ii, after fields that printed, is the first failure of the list. */
  lemma FailsAt(qualifier: string, fields: seq<Field>, ii: nat, part: FieldPart)
    requires ii < |fields|
    requires FirstFailure(fields[..ii]).None?
    requires FieldFailure(fields[ii]) == Some(part)
    ensures PrintedParams(qualifier, fields) == Failure(part)
  {
    FieldsSnoc(qualifier, fields, ii);
    FirstFailureOfPrefix(fields, ii + 1);
  }

  /** Names are joined by "," and fields by "," as well, with no space after either comma. */
  lemma PrintedParamsExample()
    ensures PrintedParams("", [Field([Text("a"), Text("b")], Text("int")), Field([], Text("error"))])
         == Success("a,b int,error")
  {
    var f := Field([Text("a"), Text("b")], Text("int"));
    var g := Field([], Text("error"));
    var fields := [f, g];
    assert [f, g][..1] == [f];
    assert [f][..0] == [];
    assert f.names[..1] == [Text("a")];
    assert NameTexts(f.names) == ["a", "b"];
    assert FieldText("", f) == "a,b int";
    assert FieldText("", g) == "error";
    assert FieldTexts("", fields) == ["a,b int", "error"];
    assert FieldFailure(f).None? && FieldFailure(g).None?;
    assert FirstFailure([f]) == None by { assert [f][..0] == []; }
    assert fields[..1] == [f];
    assert FirstFailure(fields) == None;
    assert Join(",", ["a,b int", "error"]) == "a,b int,error" by {
      assert ["a,b int", "error"][..1] == ["a,b int"];
    }
  }
}
