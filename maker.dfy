/**
 * The Maker object: the state the interface maker accumulates across source
 * files, the operations that update it, and the emission of the interface.
 */
module Makers {
  import opened Outcomes
  import opened Runes
  import opened Qualifier
  import opened Declarations
  import opened Collector
  import opened Imports
  import opened Emitter

  /** A parsed source file: its top-level declarations and its import specs. */
  datatype File = File(decls: seq<Decl>, imports: seq<ImportSpec>)

  /** What parser.ParseFile made of a source: a file, or a parse error. */
  datatype Source = Parsed(file: File) | Unparsable

  datatype MakerError =
    | ParseFailed
    | RenderFailed(render: RenderError)
    | ImportFailed(cause: ImportError)

  /** The state ParseSource leaves behind and the error it returns. */
  datatype Ingested = Ingested(col: Collection, reg: Registry, failure: Option<MakerError>)

  /**
   * ParseSource on the Maker state: collect the file's methods, and register
   * its imports only when the file has an exported method of the struct.
   */
  function Ingest(cfg: Config, col: Collection, reg: Registry, src: Source): Ingested
  {
    if src.Unparsable? then Ingested(col, reg, Some(ParseFailed))
    else
      var c := CollectDecls(cfg, col, src.file.decls);
      if c.failure.Some? then Ingested(c.col, reg, Some(RenderFailed(c.failure.value)))
      else if !c.hasMethods then Ingested(c.col, reg, None)
      else
        var r := RegisterAll(reg, src.file.imports);
        Ingested(c.col, r.reg, if r.failure.Some? then Some(ImportFailed(r.failure.value)) else None)
  }

  /**
   * A file without an exported method of the struct changes no state and
   * raises no error, whatever its imports are.
   */
  lemma IrrelevantFileChangesNothing(cfg: Config, col: Collection, reg: Registry, file: File)
    requires forall i | 0 <= i < |file.decls| :: Select(cfg.structName, file.decls[i]).None?
    ensures Ingest(cfg, col, reg, Parsed(file)) == Ingested(col, reg, None)
  {
    NoCandidatesNoChange(cfg.structName, RenderWith(cfg), col, file.decls);
  }

  /** An import error can only come from a file that has an exported method of the struct. */
  lemma ImportErrorNeedsMethod(cfg: Config, col: Collection, reg: Registry, file: File)
    requires var f := Ingest(cfg, col, reg, Parsed(file)).failure; f.Some? && f.value.ImportFailed?
    ensures exists i | 0 <= i < |file.decls| :: Select(cfg.structName, file.decls[i]).Some?
  {
    HasMethodsIff(cfg.structName, RenderWith(cfg), col, file.decls);
  }

  class Maker {
    var structName: string
    var copyDocs: bool
    var importsByPath: map<string, ImportedPkg>
    var importsByAlias: map<string, ImportedPkg>
    var imports: seq<ImportedPkg>
    var methods: seq<Method>
    var methodNames: set<string>
    /** The name of each entry of `methods`, in the same order. */
    ghost var methodKeys: seq<string>
    var srcPackage: string
    var omitGeneratedComment: bool

    ghost predicate Valid()
      reads this
    {
      && WellFormed(Collection(methodKeys, methods))
      && methodNames == (set k | k in methodKeys)
      && Imports.Valid(ImportTable())
    }

    function Settings(): Config
      reads this
    {
      Config(structName, copyDocs, srcPackage)
    }

    ghost function MethodTable(): Collection
      reads this
    {
      Collection(methodKeys, methods)
    }

    function ImportTable(): Registry
      reads this
    {
      Registry(importsByPath, importsByAlias, imports)
    }

    /** A Maker as the struct literal `&Maker{StructName: ..., CopyDocs: ...}` creates it. */
    constructor (structName: string, copyDocs: bool)
      ensures Valid()
      ensures this.structName == structName && this.copyDocs == copyDocs
      ensures MethodTable() == Collection([], []) && ImportTable() == Imports.Empty
      ensures srcPackage == "" && !omitGeneratedComment
    {
      this.structName := structName;
      this.copyDocs := copyDocs;
      importsByPath := map[];
      importsByAlias := map[];
      imports := [];
      methods := [];
      methodNames := {};
      methodKeys := [];
      srcPackage := "";
      omitGeneratedComment := false;
    }

    /** init: resets methodNames while no method is collected, which leaves a valid Maker as it is. */
    method Init()
      requires Valid()
      modifies this
      ensures Valid()
      ensures unchanged(this)
    {
      if methods == [] {
        methodNames := {};
      }
    }

    /** AddImport: appends an import to the list without registering it in either map. */
    method AddImport(alias: string, path: string)
      requires Valid()
      modifies this
      ensures Valid()
      ensures imports == old(imports) + [ImportedPkg(alias, path)]
      ensures importsByPath == old(importsByPath) && importsByAlias == old(importsByAlias)
      ensures MethodTable() == old(MethodTable()) && methodNames == old(methodNames)
      ensures Settings() == old(Settings()) && omitGeneratedComment == old(omitGeneratedComment)
    {
      imports := imports + [ImportedPkg(alias, path)];
    }

    method SourcePackage(p: string)
      requires Valid()
      modifies this
      ensures Valid()
      ensures srcPackage == p
      ensures structName == old(structName) && copyDocs == old(copyDocs)
      ensures MethodTable() == old(MethodTable()) && ImportTable() == old(ImportTable())
      ensures omitGeneratedComment == old(omitGeneratedComment)
    {
      srcPackage := p;
    }

    method OmitGeneratedComment()
      requires Valid()
      modifies this
      ensures Valid()
      ensures omitGeneratedComment
      ensures Settings() == old(Settings())
      ensures MethodTable() == old(MethodTable()) && ImportTable() == old(ImportTable())
    {
      omitGeneratedComment := true;
    }

    /** replaceType: qualify the exported identifiers of a rendered type with the source package. */
    method ReplaceType(input: string) returns (out: string)
      ensures out == Qualify(srcPackage, input)
      ensures srcPackage == "" ==> out == input
      ensures srcPackage != "" ==> Unqualify(srcPackage + ".", out, Marks(Start, input)) == Some(input)
    {
      if srcPackage == "" {
        return input;
      }
      out := [];
      var p := Start;
      var i := 0;
      while i < |input|
        invariant 0 <= i <= |input|
        invariant out + QualifyFrom(srcPackage, p, input[i..]) == QualifyFrom(srcPackage, Start, input)
      {
        var r := input[i];
        ghost var before := out;
        ghost var prefix := if AddPrefix(r, p) then srcPackage + "." else [];
        ghost var tail := QualifyFrom(srcPackage, r, input[i + 1..]);
        assert input[i..] == [r] + input[i + 1..];
        assert QualifyFrom(srcPackage, p, input[i..]) == prefix + [r] + tail;
        if AddPrefix(r, p) {
          out := out + (srcPackage + ".");
        }
        out := out + [r];
        assert out == before + prefix + [r];
        assert out + tail == before + (prefix + [r] + tail);
        p := r;
        i := i + 1;
      }
      UnqualifyInverts(srcPackage, Start, input);
    }

    /** The names part of printParameters: each name, then "," between names and " " after the last. */
    method PrintNames(names: seq<Printed>) returns (r: Result<string, FieldPart>)
      ensures r.Failure? <==> exists j | 0 <= j < |names| :: names[j].Unprintable?
      ensures r.Failure? ==> r.error == NamePart
      ensures r.Success? ==> r.value == NamesSoFar(names, |names|)
    {
      var buff := "";
      var l := |names|;
      var i := 0;
      NamesSoFarStart(names);
      while i < l
        invariant 0 <= i <= l
        invariant forall j | 0 <= j < i :: names[j].Text?
        invariant buff == NamesSoFar(names, i)
      {
        if names[i].Unprintable? {
          assert 0 <= i < |names| && names[i].Unprintable?;
          return Failure(NamePart);
        }
        NamesSoFarStep(names, i);
        buff := buff + names[i].text;
        if i < l - 1 {
          buff := buff + ",";
        } else {
          buff := buff + " ";
        }
        i := i + 1;
      }
      assert forall j | 0 <= j < |names| :: names[j].Text?;
      return Success(buff);
    }

    /** printParameters: the fields joined by commas, or the first failure to print a name or a type. */
    method PrintParameters(fields: seq<Field>) returns (r: Result<string, FieldPart>)
      ensures r == PrintedParams(srcPackage, fields)
    {
      var buff := "";
      var ll := |fields|;
      var ii := 0;
      FieldsSoFarStart(srcPackage, fields);
      while ii < ll
        invariant 0 <= ii <= ll
        invariant FirstFailure(fields[..ii]).None?
        invariant buff == FieldsSoFar(srcPackage, fields, ii)
      {
        var field := fields[ii];
        var names := PrintNames(field.names);
        if names.Failure? {
          FailsAt(srcPackage, fields, ii, NamePart);
          return Failure(NamePart);
        }
        if field.typ.Unprintable? {
          FailsAt(srcPackage, fields, ii, TypePart);
          return Failure(TypePart);
        }
        var typ := ReplaceType(field.typ.text);
        FieldsSoFarNext(srcPackage, fields, ii, names.value, typ);
        buff := buff + names.value + typ;
        if ii < ll - 1 {
          buff := buff + ",";
        }
        ii := ii + 1;
      }
      FieldsSoFarDone(srcPackage, fields);
      return Success(buff);
    }

    /**
     * parseDeclarations: add every exported method of the struct whose name is
     * new, in order; report whether the file had any such method.
     */
    /**
     * The body of parseDeclarations for one new method: print the parameters,
     * then the results, and build `name(params) (results)` with the doc lines
     * when CopyDocs is set.
     */
    method BuildMethod(fd: FuncDecl) returns (r: Result<Method, RenderError>)
      ensures r == RenderMethod(Settings(), fd)
    {
      var params := PrintParameters(fd.params);
      if params.Failure? {
        return Failure(RenderError(false, params.error));
      }
      var ret := PrintParameters(fd.results);
      if ret.Failure? {
        return Failure(RenderError(true, ret.error));
      }
      var docs := if copyDocs then fd.doc else [];
      return Success(Method(fd.name + "(" + params.value + ") (" + ret.value + ")", docs));
    }

    /** Record a newly rendered method under its name, after those already collected. */
    method AddMethod(name: string, m: Method)
      requires Valid()
      requires name !in methodNames && name + "(" <= m.code
      modifies this
      ensures Valid()
      ensures MethodTable() == Collection(old(methodKeys) + [name], old(methods) + [m])
      ensures ImportTable() == old(ImportTable()) && Settings() == old(Settings())
      ensures omitGeneratedComment == old(omitGeneratedComment)
    {
      AddKeepsWellFormed(MethodTable(), name, m);
      methodNames := methodNames + {name};
      methods := methods + [m];
      methodKeys := methodKeys + [name];
    }

    method ParseMethods(decls: seq<Decl>) returns (hasMethods: bool, err: Option<RenderError>)
      requires Valid()
      modifies this
      ensures Valid()
      ensures var c := CollectDecls(old(Settings()), old(MethodTable()), decls);
        MethodTable() == c.col && hasMethods == c.hasMethods && err == c.failure
      ensures ImportTable() == old(ImportTable()) && Settings() == old(Settings())
      ensures omitGeneratedComment == old(omitGeneratedComment)
    {
      ghost var cfg := Settings();
      ghost var whole := CollectDecls(cfg, MethodTable(), decls);
      hasMethods := false;
      var i := 0;
      while i < |decls|
        invariant 0 <= i <= |decls|
        invariant Valid()
        invariant Settings() == cfg && ImportTable() == old(ImportTable())
        invariant omitGeneratedComment == old(omitGeneratedComment)
        invariant var rest := CollectDecls(cfg, MethodTable(), decls[i..]);
          whole == rest.(hasMethods := hasMethods || rest.hasMethods)
      {
        var d := decls[i];
        assert decls[i..][0] == d && decls[i..][1..] == decls[i + 1..];
        var (a, fd) := ReceiverTypeName(d);
        if a == structName && fd.Some? && IsExported(fd.value.name) {
          assert Select(structName, d) == fd;
          hasMethods := true;
          var methodName := fd.value.name;
          if methodName !in methodNames {
            var rendered := BuildMethod(fd.value);
            if rendered.Failure? {
              return hasMethods, Some(rendered.error);
            }
            AddMethod(methodName, rendered.value);
          }
        } else {
          assert Select(structName, d).None?;
        }
        i := i + 1;
      }
      assert decls[i..] == [];
      return hasMethods, None;
    }

    /** One iteration of parseImports: register one import spec, or report why it cannot be. */
    method ImportOne(spec: ImportSpec) returns (err: Option<ImportError>)
      requires Valid()
      modifies this
      ensures Valid()
      ensures var r := Register(old(ImportTable()), spec);
        && (r.Success? ==> ImportTable() == r.value && err == None)
        && (r.Failure? ==> ImportTable() == old(ImportTable()) && err == Some(r.error))
      ensures MethodTable() == old(MethodTable()) && methodNames == old(methodNames)
      ensures Settings() == old(Settings()) && omitGeneratedComment == old(omitGeneratedComment)
    {
      ghost var before := ImportTable();
      var alias := spec.alias;
      if alias != DotAlias {
        if spec.unquoted.None? {
          return Some(UnquoteFailed(spec.rawPath));
        }
        var path := spec.unquoted.value;
        if path in importsByPath && importsByPath[path].alias != alias {
          return Some(AliasMismatch(path, ErrorAlias(importsByPath[path].alias), ErrorAlias(alias)));
        } else if path !in importsByPath {
          if alias != "" && alias in importsByAlias {
            return Some(AliasInUse(alias));
          }
          var imp := ImportedPkg(alias, path);
          importsByPath := importsByPath[path := imp];
          importsByAlias := importsByAlias[alias := imp];
          imports := imports + [imp];
        }
      }
      assert Register(before, spec) == Success(ImportTable());
      RegisterValid(before, spec);
      return None;
    }

    /**
     * parseImports: register each import of a file, skipping dot imports and
     * stopping at the first error; registrations made before it stay.
     */
    method ParseImports(specs: seq<ImportSpec>) returns (err: Option<ImportError>)
      requires Valid()
      modifies this
      ensures Valid()
      ensures var r := RegisterAll(old(ImportTable()), specs);
        ImportTable() == r.reg && err == r.failure
      ensures MethodTable() == old(MethodTable()) && methodNames == old(methodNames)
      ensures Settings() == old(Settings()) && omitGeneratedComment == old(omitGeneratedComment)
    {
      ghost var whole := RegisterAll(ImportTable(), specs);
      var i := 0;
      while i < |specs|
        invariant 0 <= i <= |specs|
        invariant Valid()
        invariant MethodTable() == old(MethodTable()) && methodNames == old(methodNames)
        invariant Settings() == old(Settings()) && omitGeneratedComment == old(omitGeneratedComment)
        invariant RegisterAll(ImportTable(), specs[i..]) == whole
      {
        assert specs[i..][0] == specs[i] && specs[i..][1..] == specs[i + 1..];
        var e := ImportOne(specs[i]);
        if e.Some? {
          return e;
        }
        i := i + 1;
      }
      assert specs[i..] == [];
      return None;
    }

    /**
     * ParseSource: collect the methods of a parsed file and, only when it has
     * an exported method of the struct, register its imports.
     */
    method ParseSource(src: Source) returns (err: Option<MakerError>)
      requires Valid()
      modifies this
      ensures Valid()
      ensures var r := Ingest(old(Settings()), old(MethodTable()), old(ImportTable()), src);
        MethodTable() == r.col && ImportTable() == r.reg && err == r.failure
      ensures Settings() == old(Settings()) && omitGeneratedComment == old(omitGeneratedComment)
    {
      Init();
      if src.Unparsable? {
        return Some(ParseFailed);
      }
      var hasMethods, e := ParseMethods(src.file.decls);
      if e.Some? {
        return Some(RenderFailed(e.value));
      }
      if !hasMethods {
        return None;
      }
      var ie := ParseImports(src.file.imports);
      if ie.Some? {
        return Some(ImportFailed(ie.value));
      }
      return None;
    }

    /** ParseDeclarations: count the declarations of a parsed file by receiver type name. */
    method ParseDeclarations(src: Source) returns (declarations: map<string, int>, err: Option<MakerError>)
      requires Valid()
      modifies this
      ensures Valid()
      ensures unchanged(this)
      ensures src.Unparsable? ==> declarations == map[] && err == Some(ParseFailed)
      ensures src.Parsed? ==> err == None && declarations.Keys == Names(src.file.decls)
      ensures src.Parsed? ==> forall k :: Get(declarations, k) == Count(src.file.decls, k)
    {
      Init();
      if src.Unparsable? {
        return map[], Some(ParseFailed);
      }
      declarations := CountReceivers(src.file.decls);
      err := None;
    }

    /** makeInterface: the unformatted interface file, its lines joined by newlines. */
    method MakeInterfaceText(pkgName: string, ifaceName: string) returns (text: string)
      ensures text == Join("\n", InterfaceLines(omitGeneratedComment, pkgName, ifaceName,
                                                srcPackage, structName, imports, methods))
    {
      var output: seq<string> := [];
      if !omitGeneratedComment {
        output := output + [GeneratedComment];
      }
      output := output + [""];
      output := output + ["package " + pkgName];
      output := output + ["import ("];
      ghost var head := output;
      assert head == (if omitGeneratedComment then [] else [GeneratedComment]) + ["", "package " + pkgName, "import ("];
      var i := 0;
      while i < |imports|
        invariant 0 <= i <= |imports|
        invariant output == head + AllImportLines(imports[..i])
      {
        assert imports[..i + 1][..i] == imports[..i];
        output := output + ImportLines(imports[i]);
        i := i + 1;
      }
      assert imports[..i] == imports;
      output := output + [")"];
      ghost var closed := output;
      if srcPackage != "" {
        output := output + [Assertion(ifaceName, srcPackage, structName)];
      }
      assert output == closed + (if srcPackage != "" then [Assertion(ifaceName, srcPackage, structName)] else []);
      output := output + [InterfaceHeader(ifaceName)];
      ghost var prefix := output;
      assert prefix == InterfacePrefix(omitGeneratedComment, pkgName, ifaceName, srcPackage, structName, imports);
      var j := 0;
      while j < |methods|
        invariant 0 <= j <= |methods|
        invariant output == prefix + AllMethodLines(methods[..j])
      {
        assert methods[..j + 1][..j] == methods[..j];
        output := output + MethodLines(methods[j]);
        j := j + 1;
      }
      assert methods[..j] == methods;
      output := output + ["}"];
      text := Join("\n", output);
    }
  }
}
