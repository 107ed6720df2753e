/**
 * The emitter of makeInterface: the unformatted interface file as a list of
 * lines in a fixed order, joined by newlines.
 */
module Emitter {
  import opened Runes
  import opened Imports
  import opened Collector

  const GeneratedComment: string := "// Code generated by ifacemaker. DO NOT EDIT."

  /** method.Lines: the doc lines, then the code line. */
  function MethodLines(m: Method): seq<string>
  {
    m.docs + [m.code]
  }

  /** The %q rendering of an import path that needs no escaping. */
  function Quote(path: string): string
  {
    "\"" + path + "\""
  }

  /** importedPkg.Lines: `alias "path"`, with the (possibly empty) alias always written. */
  function ImportLines(i: ImportedPkg): seq<string>
  {
    [i.alias + " " + Quote(i.path)]
  }

  function AllImportLines(imports: seq<ImportedPkg>): (r: seq<string>)
    ensures |r| == |imports|
  {
    if imports == [] then []
    else AllImportLines(imports[..|imports| - 1]) + ImportLines(imports[|imports| - 1])
  }

  function AllMethodLines(methods: seq<Method>): seq<string>
  {
    if methods == [] then []
    else AllMethodLines(methods[..|methods| - 1]) + MethodLines(methods[|methods| - 1])
  }

  /** The compile-time check that the struct satisfies the interface. */
  function Assertion(ifaceName: string, srcPackage: string, structName: string): string
  {
    "var _ " + ifaceName + " = (*" + srcPackage + "." + structName + ")(nil)"
  }

  function InterfaceHeader(ifaceName: string): string
  {
    "type " + ifaceName + " interface {"
  }

  /** Everything makeInterface writes before the methods of the interface. */
  function InterfacePrefix(
    omitGeneratedComment: bool, pkgName: string, ifaceName: string,
    srcPackage: string, structName: string, imports: seq<ImportedPkg>): seq<string>
  {
    (if omitGeneratedComment then [] else [GeneratedComment])
    + ["", "package " + pkgName, "import ("]
    + AllImportLines(imports)
    + [")"]
    + (if srcPackage != "" then [Assertion(ifaceName, srcPackage, structName)] else [])
    + [InterfaceHeader(ifaceName)]
  }

  /** The lines makeInterface joins, in order. */
  function InterfaceLines(
    omitGeneratedComment: bool, pkgName: string, ifaceName: string,
    srcPackage: string, structName: string,
    imports: seq<ImportedPkg>, methods: seq<Method>): seq<string>
  {
    InterfacePrefix(omitGeneratedComment, pkgName, ifaceName, srcPackage, structName, imports)
    + AllMethodLines(methods)
    + ["}"]
  }

  /** Where the lines of method i start: one line per doc line and one code line before it. */
  function Offset(methods: seq<Method>, i: nat): nat
    requires i <= |methods|
  {
    if i == 0 then 0 else Offset(methods, i - 1) + |methods[i - 1].docs| + 1
  }

  /** Import k is line k of the import lines. */
  lemma {:induction false} ImportLineAt(imports: seq<ImportedPkg>, k: nat)
    requires k < |imports|
    ensures AllImportLines(imports)[k] == imports[k].alias + " " + Quote(imports[k].path)
    decreases |imports|
  {
    var init := imports[..|imports| - 1];
    if k < |imports| - 1 {
      ImportLineAt(init, k);
    }
  }

  lemma {:induction false} OffsetOfPrefix(methods: seq<Method>, n: nat, i: nat)
    requires i <= n <= |methods|
    ensures Offset(methods[..n], i) == Offset(methods, i)
    decreases i
  {
    if i > 0 {
      OffsetOfPrefix(methods, n, i - 1);
    }
  }

  lemma {:induction false} OffsetMonotone(methods: seq<Method>, i: nat, j: nat)
    requires i <= j <= |methods|
    ensures Offset(methods, i) <= Offset(methods, j)
    decreases j
  {
    if i < j {
      OffsetMonotone(methods, i, j - 1);
    }
  }

  /** The body has one line per doc line and one code line per method. */
  lemma {:induction false} MethodLinesLength(methods: seq<Method>)
    ensures |AllMethodLines(methods)| == Offset(methods, |methods|)
    decreases |methods|
  {
    if methods != [] {
      var n := |methods| - 1;
      MethodLinesLength(methods[..n]);
      OffsetOfPrefix(methods, n, n);
    }
  }

  /**
   * The body lists every method in order: the doc lines of method i followed
   * by its code line occupy the lines from Offset(i) up to Offset(i + 1).
   */
  lemma {:induction false} MethodLinesAt(methods: seq<Method>, i: nat)
    requires i < |methods|
    ensures Offset(methods, i + 1) <= |AllMethodLines(methods)|
    ensures AllMethodLines(methods)[Offset(methods, i)..Offset(methods, i + 1)]
         == methods[i].docs + [methods[i].code]
    decreases |methods|
  {
    var n := |methods| - 1;
    var init := methods[..n];
    var before := AllMethodLines(init);
    assert AllMethodLines(methods) == before + (methods[n].docs + [methods[n].code]);
    assert |before| == Offset(methods, n) by {
      MethodLinesLength(init);
      OffsetOfPrefix(methods, n, n);
    }
    if i < n {
      var a := Offset(methods, i);
      var b := Offset(methods, i + 1);
      assert a == Offset(init, i) && b == Offset(init, i + 1) by {
        OffsetOfPrefix(methods, n, i);
        OffsetOfPrefix(methods, n, i + 1);
      }
      assert b <= |before| by {
        OffsetMonotone(methods, i + 1, n);
      }
      assert before[a..b] == init[i].docs + [init[i].code] by {
        MethodLinesAt(init, i);
      }
      assert init[i] == methods[i];
    }
  }

  /** The number of lines before the methods. */
  function PrefixLength(omit: bool, srcPackage: string, imports: seq<ImportedPkg>): nat
  {
    (if omit then 0 else 1) + 5 + |imports| + (if srcPackage != "" then 1 else 0)
  }

  /**
   * The head of the file: the optional generated-code comment, an empty
   * line, the package clause, the import block, the assertion exactly when a
   * source package is set, then the opening of the interface.
   */
  lemma InterfaceHead(
    omit: bool, pkgName: string, ifaceName: string, srcPackage: string, structName: string,
    imports: seq<ImportedPkg>, methods: seq<Method>)
    ensures var lines := InterfaceLines(omit, pkgName, ifaceName, srcPackage, structName, imports, methods);
      var h := if omit then 0 else 1;
      var n := |imports|;
      var b := PrefixLength(omit, srcPackage, imports);
      && |lines| == b + Offset(methods, |methods|) + 1
      && (!omit ==> lines[0] == GeneratedComment)
      && lines[h] == ""
      && lines[h + 1] == "package " + pkgName
      && lines[h + 2] == "import ("
      && lines[h + 3 + n] == ")"
      && (lines[h + 4 + n] == Assertion(ifaceName, srcPackage, structName) <==> srcPackage != "")
      && lines[b - 1] == InterfaceHeader(ifaceName)
      && lines[|lines| - 1] == "}"
  {
    var prefix := InterfacePrefix(omit, pkgName, ifaceName, srcPackage, structName, imports);
    var h := if omit then 0 else 1;
    var n := |imports|;
    MethodLinesLength(methods);
    assert |prefix| == PrefixLength(omit, srcPackage, imports);
    assert prefix[h + 4 + n] == (if srcPackage != "" then Assertion(ifaceName, srcPackage, structName) else InterfaceHeader(ifaceName));
    assert Assertion(ifaceName, srcPackage, structName)[0] == 'v';
    assert InterfaceHeader(ifaceName)[0] == 't';
  }

  /** Import k is on line h + 3 + k, rendered as `alias "path"`. */
  lemma InterfaceImportLine(
    omit: bool, pkgName: string, ifaceName: string, srcPackage: string, structName: string,
    imports: seq<ImportedPkg>, methods: seq<Method>, k: nat)
    requires k < |imports|
    ensures var lines := InterfaceLines(omit, pkgName, ifaceName, srcPackage, structName, imports, methods);
      lines[(if omit then 0 else 1) + 3 + k] == imports[k].alias + " " + Quote(imports[k].path)
  {
    var prefix := InterfacePrefix(omit, pkgName, ifaceName, srcPackage, structName, imports);
    ImportLineAt(imports, k);
    assert prefix[(if omit then 0 else 1) + 3 + k] == AllImportLines(imports)[k];
  }

  /** Method i's doc lines and code line follow the interface opening in collected order. */
  lemma InterfaceMethodLines(
    omit: bool, pkgName: string, ifaceName: string, srcPackage: string, structName: string,
    imports: seq<ImportedPkg>, methods: seq<Method>, i: nat)
    requires i < |methods|
    ensures var lines := InterfaceLines(omit, pkgName, ifaceName, srcPackage, structName, imports, methods);
      var b := PrefixLength(omit, srcPackage, imports);
      && b + Offset(methods, i + 1) < |lines|
      && lines[b + Offset(methods, i)..b + Offset(methods, i + 1)] == methods[i].docs + [methods[i].code]
  {
    var prefix := InterfacePrefix(omit, pkgName, ifaceName, srcPackage, structName, imports);
    var body := AllMethodLines(methods);
    var b := PrefixLength(omit, srcPackage, imports);
    assert |prefix| == b;
    MethodLinesAt(methods, i);
    var lines := prefix + body + ["}"];
    assert lines[b + Offset(methods, i)..b + Offset(methods, i + 1)]
        == body[Offset(methods, i)..Offset(methods, i + 1)];
  }
}
