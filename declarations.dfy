/**
 * The declarations of a parsed Go file as far as the interface maker looks at
 * them, and the receiver test of getReceiverTypeName.
 */
module Declarations {
  import opened Outcomes
  import opened Runes

  /** What go/printer made of a node: its text, or a failure to print it. */
  datatype Printed = Text(text: string) | Unprintable

  /** A receiver type expression: an identifier, a pointer, or anything else. */
  datatype TypeExpr = Ident(name: string) | Star(x: TypeExpr) | OtherType

  /** A field of a receiver list: its names (possibly none) and its type. */
  datatype ReceiverField = ReceiverField(names: seq<string>, typ: TypeExpr)

  /** A field of a parameter or result list: the printed names and the printed type. */
  datatype Field = Field(names: seq<Printed>, typ: Printed)

  /** A func declaration; `recv` is empty for a plain function. */
  datatype FuncDecl = FuncDecl(
    recv: seq<ReceiverField>,
    name: string,
    params: seq<Field>,
    results: seq<Field>,
    doc: seq<string>)

  /** A top-level declaration: a func declaration or any other kind. */
  datatype Decl = Func(fd: FuncDecl) | OtherDecl

  /** ast.FieldList.NumFields: a field without names counts once, otherwise once per name. */
  function NumFields(fields: seq<ReceiverField>): nat
  {
    if fields == [] then 0
    else (if |fields[0].names| == 0 then 1 else |fields[0].names|) + NumFields(fields[1..])
  }

  /** getReceiverTypeName: the receiver's type name and the declaration, or "" and nil. */
  function ReceiverTypeName(d: Decl): (r: (string, Option<FuncDecl>))
    ensures r.1.None? ==> r.0 == ""
    ensures r.1.Some? ==> d == Func(r.1.value)
    ensures r.1.Some? ==> IsReceiverOf(r.0, d)
    ensures forall n :: IsReceiverOf(n, d) ==> r == (n, Some(d.fd))
  {
    if !d.Func? then ("", None)
    else if NumFields(d.fd.recv) != 1 then ("", None)
    else
      var t := d.fd.recv[0].typ;
      var t' := if t.Star? then t.x else t;
      if t'.Ident? then (t'.name, Some(d.fd)) else ("", None)
  }

  /** A method whose single receiver is `structName` or `*structName`. */
  predicate IsReceiverOf(structName: string, d: Decl) {
    && d.Func?
    && NumFields(d.fd.recv) == 1
    && |d.fd.recv| == 1
    && (d.fd.recv[0].typ == Ident(structName) || d.fd.recv[0].typ == Star(Ident(structName)))
  }

  /** One counted receiver field is one field of the list. */
  lemma {:induction false} NumFieldsOne(fields: seq<ReceiverField>)
    requires NumFields(fields) == 1
    ensures |fields| == 1
  {
    if |fields| > 1 {
      NumFieldsPositive(fields[1..]);
    }
  }

  lemma {:induction false} NumFieldsPositive(fields: seq<ReceiverField>)
    requires fields != []
    ensures NumFields(fields) >= 1
  {
  }

  /** The outcome of the filter at maker.go:84-90 as written. */
  datatype Selection = Skip | Candidate(fd: FuncDecl) | NilDereference

  /**
   * The filter as written: compare the receiver name with the struct name,
   * then read the name of the declaration, which is nil when the declaration
   * is not a method on a named type.
   */
  function SelectAsWritten(structName: string, d: Decl): Selection
  {
    var (a, fd) := ReceiverTypeName(d);
    if a != structName then Skip
    else if fd.None? then NilDereference
    else if !IsExported(fd.value.name) then Skip
    else Candidate(fd.value)
  }

  /** With an empty struct name any plain function reaches the nil declaration. */
  lemma EmptyStructNameDereferencesNil(name: string)
    ensures SelectAsWritten("", Func(FuncDecl([], name, [], [], []))) == NilDereference
    ensures SelectAsWritten("", OtherDecl) == NilDereference
  {
  }

  /**
   * The filter with the nil check it evidently intends: an exported method
   * whose receiver is `structName` or `*structName`.
   */
  function Select(structName: string, d: Decl): (r: Option<FuncDecl>)
    ensures r.Some? <==> IsReceiverOf(structName, d) && IsExported(d.fd.name)
    ensures r.Some? ==> d == Func(r.value)
  {
    var (a, fd) := ReceiverTypeName(d);
    if a != structName || fd.None? then None
    else if !IsExported(fd.value.name) then None
    else NumFieldsOne(d.fd.recv); Some(fd.value)
  }

  /** For a non-empty struct name the code as written never reaches the nil and agrees with Select. */
  lemma SelectAsWrittenAgrees(structName: string, d: Decl)
    requires structName != ""
    ensures SelectAsWritten(structName, d) != NilDereference
    ensures SelectAsWritten(structName, d) == match Select(structName, d)
                                               case Some(fd) => Candidate(fd)
                                               case None => Skip
  {
  }

  /** How many declarations getReceiverTypeName maps to `name`. */
  function Count(decls: seq<Decl>, name: string): nat
  {
    if decls == [] then 0
    else Count(decls[..|decls| - 1], name) + (if ReceiverTypeName(decls[|decls| - 1]).0 == name then 1 else 0)
  }

  /** The receiver names that occur in `decls` ("" for non-methods). */
  function Names(decls: seq<Decl>): set<string>
  {
    set d | d in decls :: ReceiverTypeName(d).0
  }

  /** The count map of ParseDeclarations as a value. */
  function Counts(decls: seq<Decl>): map<string, int>
  {
    map k | k in Names(decls) :: Count(decls, k)
  }

  /** A Go map lookup: a missing key reads as zero. */
  function Get(m: map<string, int>, k: string): int
  {
    if k in m then m[k] else 0
  }

  /** The running total after adding the counts of one file: the union of the keys, the sum of the counts. */
  function Merged(all: map<string, int>, st: map<string, int>): map<string, int>
  {
    map k | k in all.Keys + st.Keys :: Get(all, k) + Get(st, k)
  }

  /** The merge loop of ReadStructs: `allStructs[k] += v` for every entry of one file's counts. */
  method MergeCounts(all: map<string, int>, st: map<string, int>) returns (r: map<string, int>)
    ensures r.Keys == all.Keys + st.Keys
    ensures forall k :: Get(r, k) == Get(all, k) + Get(st, k)
    ensures r == Merged(all, st)
  {
    r := all;
    var rest := st.Keys;
    while rest != {}
      invariant rest <= st.Keys
      invariant r.Keys == all.Keys + (st.Keys - rest)
      invariant forall k :: Get(r, k) == Get(all, k) + (if k in st.Keys - rest then Get(st, k) else 0)
      decreases rest
    {
      var k :| k in rest;
      r := r[k := Get(r, k) + st[k]];
      rest := rest - {k};
    }
    assert forall k | k in r :: r[k] == Get(r, k);
  }

  /** A name is counted exactly when some declaration has it. */
  lemma {:induction false} CountPositive(decls: seq<Decl>, name: string)
    ensures Count(decls, name) > 0 <==> name in Names(decls)
  {
    if decls != [] {
      var init := decls[..|decls| - 1];
      CountPositive(init, name);
      assert decls == init + [decls[|decls| - 1]];
      assert Names(decls) == Names(init) + {ReceiverTypeName(decls[|decls| - 1]).0};
    }
  }

  lemma {:induction false} CountAppend(a: seq<Decl>, b: seq<Decl>, name: string)
    ensures Count(a + b, name) == Count(a, name) + Count(b, name)
    decreases |b|
  {
    if b == [] {
      assert a + b == a;
    } else {
      var b' := b[..|b| - 1];
      CountAppend(a, b', name);
      assert (a + b)[..|a + b| - 1] == a + b';
    }
  }

  /** Merging the counts of two files gives the counts of their declarations together. */
  lemma MergeCountsOfFiles(a: seq<Decl>, b: seq<Decl>)
    ensures Merged(Counts(a), Counts(b)) == Counts(a + b)
  {
    var l, r := Merged(Counts(a), Counts(b)), Counts(a + b);
    forall k
      ensures k in l <==> k in r
      ensures k in l ==> l[k] == r[k]
    {
      CountPositive(a, k);
      CountPositive(b, k);
      CountPositive(a + b, k);
      CountAppend(a, b, k);
    }
  }

  /** The counting loop of ParseDeclarations. */
  method CountReceivers(decls: seq<Decl>) returns (declarations: map<string, int>)
    ensures forall k :: k in declarations <==> k in Names(decls)
    ensures forall k :: Get(declarations, k) == Count(decls, k)
  {
    declarations := map[];
    var i := 0;
    while i < |decls|
      invariant 0 <= i <= |decls|
      invariant forall k :: k in declarations <==> k in Names(decls[..i])
      invariant forall k :: Get(declarations, k) == Count(decls[..i], k)
    {
      var a := ReceiverTypeName(decls[i]).0;
      declarations := declarations[a := Get(declarations, a) + 1];
      assert decls[..i + 1][..i] == decls[..i];
      assert decls[..i + 1] == decls[..i] + [decls[i]];
      assert Names(decls[..i + 1]) == Names(decls[..i]) + {a};
      i := i + 1;
    }
    assert decls[..i] == decls;
  }
}
