/**
 * The import registry of parseImports: imports by path and by alias plus the
 * ordered list that is emitted, with the two kinds of alias conflict.
 */
module Imports {
  import opened Outcomes

  /** One line of the import block. */
  datatype ImportedPkg = ImportedPkg(alias: string, path: string)

  /**
   * An import spec of a parsed file: its alias ("" when it has none), the
   * quoted path literal, and what strconv.Unquote makes of it (None when it fails).
   */
  datatype ImportSpec = ImportSpec(alias: string, rawPath: string, unquoted: Option<string>)

  datatype ImportError =
    | UnquoteFailed(rawPath: string)
    | AliasMismatch(path: string, existing: string, requested: string)
    | AliasInUse(alias: string)

  /** The fields importsByPath, importsByAlias and imports of Maker. */
  datatype Registry = Registry(
    byPath: map<string, ImportedPkg>,
    byAlias: map<string, ImportedPkg>,
    imports: seq<ImportedPkg>)

  /** What registering a file's imports leaves behind, and the error that stopped it. */
  datatype Registered = Registered(reg: Registry, failure: Option<ImportError>)

  const DotAlias: string := "."

  const Empty: Registry := Registry(map[], map[], [])

  /** errorAlias: an alias as error messages show it, never blank. */
  function ErrorAlias(alias: string): (r: string)
    ensures r != ""
    ensures alias != "" ==> r == alias
  {
    if alias == "" then "<none>" else alias
  }

  /**
   * The registry's invariant: each registered path is listed and keeps one
   * entry; a non-empty alias is bound to exactly one registered path; the
   * dot alias is never registered.
   */
  ghost predicate Valid(reg: Registry) {
    && (forall p | p in reg.byPath :: reg.byPath[p].path == p && reg.byPath[p] in reg.imports)
    && (forall p | p in reg.byPath && reg.byPath[p].alias != "" ::
          reg.byPath[p].alias in reg.byAlias && reg.byAlias[reg.byPath[p].alias] == reg.byPath[p])
    && (forall a | a in reg.byAlias ::
          && reg.byAlias[a].alias == a
          && reg.byAlias[a].path in reg.byPath
          && reg.byPath[reg.byAlias[a].path] == reg.byAlias[a])
    && DotAlias !in reg.byAlias
  }

  /** `next` keeps every registered path, every non-empty alias and every listed import of `prev`. */
  ghost predicate Extends(prev: Registry, next: Registry) {
    && (forall p | p in prev.byPath :: p in next.byPath && next.byPath[p] == prev.byPath[p])
    && (forall a | a in prev.byAlias && a != "" :: a in next.byAlias && next.byAlias[a] == prev.byAlias[a])
    && prev.imports <= next.imports
  }

  /** One iteration of parseImports. */
  function Register(reg: Registry, spec: ImportSpec): (r: Result<Registry, ImportError>)
    ensures spec.alias == DotAlias ==> r == Success(reg)
    ensures r.Success? ==> Extends(reg, r.value)
    ensures r.Success? && spec.alias != DotAlias ==>
      && spec.unquoted.Some?
      && spec.unquoted.value in r.value.byPath
      && r.value.byPath[spec.unquoted.value].alias == spec.alias
      && r.value.imports == reg.imports
           + (if spec.unquoted.value in reg.byPath then [] else [ImportedPkg(spec.alias, spec.unquoted.value)])
    ensures r.Success? && spec.alias != DotAlias && spec.unquoted.value in reg.byPath ==> r.value == reg
    ensures r.Success? && spec.alias != DotAlias && spec.unquoted.value !in reg.byPath ==>
      var imp := ImportedPkg(spec.alias, spec.unquoted.value);
      && r.value.byPath == reg.byPath[spec.unquoted.value := imp]
      && r.value.byAlias == reg.byAlias[spec.alias := imp]
    ensures r.Failure? ==> spec.alias != DotAlias
    ensures r.Failure? && spec.unquoted.None? ==> r.error == UnquoteFailed(spec.rawPath)
    ensures r.Failure? && spec.unquoted.Some? && spec.unquoted.value in reg.byPath ==>
      r.error == AliasMismatch(spec.unquoted.value, ErrorAlias(reg.byPath[spec.unquoted.value].alias), ErrorAlias(spec.alias))
    ensures r.Failure? && spec.unquoted.Some? && spec.unquoted.value !in reg.byPath ==>
      r.error == AliasInUse(spec.alias) && spec.alias != "" && spec.alias in reg.byAlias
  {
    if spec.alias == DotAlias then Success(reg)
    else if spec.unquoted.None? then Failure(UnquoteFailed(spec.rawPath))
    else
      var path := spec.unquoted.value;
      if path in reg.byPath && reg.byPath[path].alias != spec.alias then
        Failure(AliasMismatch(path, ErrorAlias(reg.byPath[path].alias), ErrorAlias(spec.alias)))
      else if path !in reg.byPath then
        if spec.alias != "" && spec.alias in reg.byAlias then Failure(AliasInUse(spec.alias))
        else
          var imp := ImportedPkg(spec.alias, path);
          Success(Registry(reg.byPath[path := imp], reg.byAlias[spec.alias := imp], reg.imports + [imp]))
      else Success(reg)
  }

  /** parseImports over the import specs of one file, stopping at the first error. */
  function RegisterAll(reg: Registry, specs: seq<ImportSpec>): Registered
    decreases |specs|
  {
    if specs == [] then Registered(reg, None)
    else match Register(reg, specs[0])
      case Failure(e) => Registered(reg, Some(e))
      case Success(reg') => RegisterAll(reg', specs[1..])
  }

  /** Whether `alias` may go with `path`, given what is registered. */
  predicate Consistent(reg: Registry, path: string, alias: string) {
    if path in reg.byPath then reg.byPath[path].alias == alias
    else alias == "" || alias !in reg.byAlias
  }

  /** A non-dot import is accepted exactly when its path unquotes and agrees with the registry. */
  lemma RegisterSucceedsIff(reg: Registry, spec: ImportSpec)
    requires spec.alias != DotAlias
    ensures Register(reg, spec).Success?
        <==> spec.unquoted.Some? && Consistent(reg, spec.unquoted.value, spec.alias)
  {
  }

  /** Registering keeps the registry's invariant. */
  lemma {:induction false} RegisterAllValid(reg: Registry, specs: seq<ImportSpec>)
    requires Valid(reg)
    ensures Valid(RegisterAll(reg, specs).reg)
    ensures Extends(reg, RegisterAll(reg, specs).reg)
    decreases |specs|
  {
    if specs != [] {
      match Register(reg, specs[0])
      case Failure(e) =>
      case Success(reg') =>
        RegisterValid(reg, specs[0]);
        RegisterAllValid(reg', specs[1..]);
    }
  }

  lemma RegisterValid(reg: Registry, spec: ImportSpec)
    requires Valid(reg)
    requires Register(reg, spec).Success?
    ensures Valid(Register(reg, spec).value)
  {
  }

  /** Two registered paths never share a non-empty alias. */
  lemma AliasesDistinct(reg: Registry, p: string, q: string)
    requires Valid(reg)
    requires p in reg.byPath && q in reg.byPath && p != q
    requires reg.byPath[p].alias != ""
    ensures reg.byPath[p].alias != reg.byPath[q].alias
  {
  }

  /**
   * After a file's imports are registered without error, every import of the
   * file that is not a dot import is registered under exactly its own alias.
   */
  lemma {:induction false} RegisterAllRecords(reg: Registry, specs: seq<ImportSpec>)
    requires Valid(reg)
    requires RegisterAll(reg, specs).failure.None?
    ensures var r := RegisterAll(reg, specs).reg;
      forall i | 0 <= i < |specs| && specs[i].alias != DotAlias ::
        && specs[i].unquoted.Some?
        && specs[i].unquoted.value in r.byPath
        && r.byPath[specs[i].unquoted.value] == ImportedPkg(specs[i].alias, specs[i].unquoted.value)
    decreases |specs|
  {
    if specs != [] {
      var reg' := Register(reg, specs[0]).value;
      RegisterValid(reg, specs[0]);
      RegisterAllRecords(reg', specs[1..]);
      RegisterAllExtends(reg', specs[1..]);
      var r := RegisterAll(reg, specs).reg;
      forall i | 0 <= i < |specs| && specs[i].alias != DotAlias
        ensures && specs[i].unquoted.Some?
                && specs[i].unquoted.value in r.byPath
                && r.byPath[specs[i].unquoted.value] == ImportedPkg(specs[i].alias, specs[i].unquoted.value)
      {
        if i > 0 {
          assert specs[i] == specs[1..][i - 1];
        }
      }
    }
  }

  /** Registering never forgets or changes a registered path. */
  lemma {:induction false} RegisterAllExtends(reg: Registry, specs: seq<ImportSpec>)
    ensures Extends(reg, RegisterAll(reg, specs).reg)
    decreases |specs|
  {
    if specs != [] {
      match Register(reg, specs[0])
      case Failure(e) =>
      case Success(reg') =>
        RegisterAllExtends(reg', specs[1..]);
    }
  }

  /** Dot imports change nothing and raise nothing. */
  lemma {:induction false} DotImportsIgnored(reg: Registry, specs: seq<ImportSpec>)
    requires forall i | 0 <= i < |specs| :: specs[i].alias == DotAlias
    ensures RegisterAll(reg, specs) == Registered(reg, None)
    decreases |specs|
  {
    if specs != [] {
      DotImportsIgnored(reg, specs[1..]);
    }
  }
}
