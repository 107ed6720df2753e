/**
 * A worked example: one method declaration of a struct rendered as the line
 * of the generated interface, with its parameters and results qualified by
 * the source package.
 */
module Samples {
  import opened Outcomes
  import opened Runes
  import opened Qualifier
  import opened Declarations
  import opened Collector

  /**
   * `func (t *T) Get(k string) (v Foo, err error)` of package pkg becomes the
   * interface line `Get(k string) (v pkg.Foo,err error)`.
   */
  lemma GetMethodExample()
    ensures var fd := FuncDecl([ReceiverField(["t"], Star(Ident("T")))], "Get",
                               [Field([Text("k")], Text("string"))],
                               [Field([Text("v")], Text("Foo")), Field([Text("err")], Text("error"))], []);
      RenderMethod(Config("T", false, "pkg"), fd) == Success(Method("Get(k string) (v pkg.Foo,err error)", []))
  {
    var fd := FuncDecl([ReceiverField(["t"], Star(Ident("T")))], "Get",
                       [Field([Text("k")], Text("string"))],
                       [Field([Text("v")], Text("Foo")), Field([Text("err")], Text("error"))], []);
    var params := GetParamsExample();
    var results := GetResultsExample();
    var r := RenderMethod(Config("T", false, "pkg"), fd);
    assert r.Success?;
    assert r.value.code == "Get" + "(" + params + ") (" + results + ")";
    GetCodeText(params, results);
  }

  lemma GetParamsExample() returns (text: string)
    ensures text == "k string"
    ensures PrintedParams("pkg", [Field([Text("k")], Text("string"))]) == Success(text)
  {
    text := PlainField("k", "string");
    OneField("pkg", Field([Text("k")], Text("string")));
    FieldText1(text);
  }

  lemma GetResultsExample() returns (text: string)
    ensures text == "v pkg.Foo,err error"
    ensures PrintedParams("pkg", [Field([Text("v")], Text("Foo")), Field([Text("err")], Text("error"))])
         == Success(text)
  {
    var v := FooField("v");
    var e := PlainField("err", "error");
    TwoFields("pkg", Field([Text("v")], Text("Foo")), Field([Text("err")], Text("error")));
    text := v + "," + e;
    FieldText2(v, e);
  }

  /** A list of one field that prints is that field's text. */
  lemma OneField(qualifier: string, f: Field)
    requires FieldFailure(f).None?
    ensures PrintedParams(qualifier, [f]) == Success(FieldText(qualifier, f))
  {
    assert [f][..0] == [];
    assert FirstFailure([f]) == None;
    assert FieldTexts(qualifier, [f]) == [FieldText(qualifier, f)];
  }

  /** A list of two fields that print is their texts joined by a comma. */
  lemma TwoFields(qualifier: string, f: Field, g: Field)
    requires FieldFailure(f).None? && FieldFailure(g).None?
    ensures PrintedParams(qualifier, [f, g]) == Success(FieldText(qualifier, f) + "," + FieldText(qualifier, g))
  {
    OneField(qualifier, f);
    assert [f, g][..1] == [f];
    assert FieldTexts(qualifier, [f, g]) == [FieldText(qualifier, f), FieldText(qualifier, g)];
    assert [FieldText(qualifier, f), FieldText(qualifier, g)][..1] == [FieldText(qualifier, f)];
  }

  /** A field with one name whose type has no exported identifier: the name, a space and the type. */
  lemma PlainField(n: string, t: string) returns (text: string)
    requires forall i | 0 <= i < |t| :: !IsUpper(t[i])
    ensures FieldFailure(Field([Text(n)], Text(t))).None?
    ensures text == FieldText("pkg", Field([Text(n)], Text(t)))
    ensures text == n + " " + t
  {
    assert [Text(n)][..0] == [];
    assert NameTexts([Text(n)]) == [n];
    NoUpperIsIdentity("pkg", Start, t);
    text := n + " " + t;
  }

  /** A field with one name of type Foo: the name, a space and the qualified type. */
  lemma FooField(n: string) returns (text: string)
    ensures FieldFailure(Field([Text(n)], Text("Foo"))).None?
    ensures text == FieldText("pkg", Field([Text(n)], Text("Foo")))
    ensures text == n + " pkg.Foo"
  {
    assert [Text(n)][..0] == [];
    assert NameTexts([Text(n)]) == [n];
    QualifyFooExample();
    text := n + " pkg.Foo";
  }

  // The string concatenations of the example, each on its own.

  lemma FieldText1(k: string)
    requires k == "k" + " " + "string"
    ensures k == "k string"
  {
  }

  lemma FieldText2(v: string, e: string)
    requires v == "v" + " pkg.Foo" && e == "err" + " " + "error"
    ensures v + "," + e == "v pkg.Foo,err error"
  {
  }

  lemma GetCodeText(params: string, results: string)
    requires params == "k string" && results == "v pkg.Foo,err error"
    ensures "Get" + "(" + params + ") (" + results + ")" == "Get(k string) (v pkg.Foo,err error)"
  {
    var head := "Get" + "(" + params + ") (";
    assert head == "Get(k string) (";
    CodeTail(head, results);
  }

  lemma CodeTail(head: string, results: string)
    requires head == "Get(k string) (" && results == "v pkg.Foo,err error"
    ensures head + results + ")" == "Get(k string) (v pkg.Foo,err error)"
  {
  }
}
