/**
 * The type qualifier of replaceType: one left-to-right scan over a rendered
 * type expression that remembers only the previous rune and writes
 * `qualifier + "."` before every identifier that starts with an upper-case
 * letter and is neither already qualified nor the continuation of another
 * identifier.
 */
module Qualifier {
  import opened Outcomes
  import opened Runes

  /** The rune the scan starts with as "previous": the zero rune. */
  const Start: char := '\0'

  /** addPrefix: whether the qualifier goes before `current`, given the rune before it. */
  predicate AddPrefix(current: char, previous: char) {
    if previous == '.' then false           // already qualified
    else if IsTypeRune(previous) then false // continuing an identifier
    else if !IsTypeRune(current) then false // not part of an identifier
    else IsUpper(current)                   // only exported names
  }

  /** What the scan writes for `s` when the rune before `s` was `previous`. */
  function QualifyFrom(qualifier: string, previous: char, s: string): string
    decreases |s|
  {
    if s == [] then []
    else
      (if AddPrefix(s[0], previous) then qualifier + "." else [])
      + [s[0]] + QualifyFrom(qualifier, s[0], s[1..])
  }

  /** replaceType: the identity without a qualifier, the scan otherwise. */
  function Qualify(qualifier: string, s: string): string
  {
    if qualifier == "" then s else QualifyFrom(qualifier, Start, s)
  }

  /** For each rune of `s`, whether the scan puts the qualifier before it. */
  function Marks(previous: char, s: string): (m: seq<bool>)
    ensures |m| == |s|
    decreases |s|
  {
    if s == [] then [] else [AddPrefix(s[0], previous)] + Marks(s[0], s[1..])
  }

  /** The number of marked runes. */
  function CountMarks(marks: seq<bool>): nat
  {
    if marks == [] then 0 else (if marks[0] then 1 else 0) + CountMarks(marks[1..])
  }

  /**
   * Deletes `w` in front of every marked rune of `t` and keeps every other
   * character; fails unless `w` stands exactly there and `t` holds one rune
   * per mark.
   */
  function Unqualify(w: string, t: string, marks: seq<bool>): Option<string>
    decreases marks
  {
    if marks == [] then
      if t == [] then Some([]) else None
    else if marks[0] then
      if |w| < |t| && t[..|w|] == w then
        match Unqualify(w, t[|w| + 1..], marks[1..])
        case Some(rest) => Some([t[|w|]] + rest)
        case None => None
      else None
    else if t == [] then None
    else
      match Unqualify(w, t[1..], marks[1..])
      case Some(rest) => Some([t[0]] + rest)
      case None => None
  }

  /**
   * The scan inserts a prefix before rune i exactly when the rune before it
   * is neither `.` nor an identifier rune and rune i is upper case.
   */
  lemma {:induction false} MarksAt(previous: char, s: string, i: nat)
    requires i < |s|
    ensures var before := if i == 0 then previous else s[i - 1];
      Marks(previous, s)[i] <==> before != '.' && !IsTypeRune(before) && IsUpper(s[i])
    decreases i
  {
    if i > 0 {
      MarksAt(s[0], s[1..], i - 1);
    }
  }

  /** The scan only inserts: deleting the qualifier at the marked runes gives back the input. */
  lemma {:induction false} UnqualifyInverts(qualifier: string, previous: char, s: string)
    ensures Unqualify(qualifier + ".", QualifyFrom(qualifier, previous, s), Marks(previous, s)) == Some(s)
    decreases |s|
  {
    if s != [] {
      var w := qualifier + ".";
      var tail := QualifyFrom(qualifier, s[0], s[1..]);
      UnqualifyInverts(qualifier, s[0], s[1..]);
      if AddPrefix(s[0], previous) {
        var t := w + [s[0]] + tail;
        assert t[..|w|] == w;
        assert t[|w|] == s[0];
        assert t[|w| + 1..] == tail;
      } else {
        var t := [s[0]] + tail;
        assert t[1..] == tail;
      }
      assert s == [s[0]] + s[1..];
    }
  }

  /** The output is the input plus one copy of `qualifier + "."` per marked rune. */
  lemma {:induction false} QualifyLength(qualifier: string, previous: char, s: string)
    ensures |QualifyFrom(qualifier, previous, s)| == |s| + (|qualifier| + 1) * CountMarks(Marks(previous, s))
    decreases |s|
  {
    if s != [] {
      QualifyLength(qualifier, s[0], s[1..]);
      var m := Marks(previous, s);
      assert m[1..] == Marks(s[0], s[1..]);
      var c := CountMarks(m[1..]);
      if m[0] {
        assert (|qualifier| + 1) * (1 + c) == (|qualifier| + 1) + (|qualifier| + 1) * c;
      }
    }
  }

  /** Text without upper-case runes (for instance no identifier at all) is left unchanged. */
  lemma {:induction false} NoUpperIsIdentity(qualifier: string, previous: char, s: string)
    requires forall i | 0 <= i < |s| :: !IsUpper(s[i])
    ensures QualifyFrom(qualifier, previous, s) == s
    decreases |s|
  {
    if s != [] {
      NoUpperIsIdentity(qualifier, s[0], s[1..]);
      assert s == [s[0]] + s[1..];
    }
  }

  /** Runs of text split anywhere are qualified independently, given the rune before each piece. */
  lemma {:induction false} QualifyAppend(qualifier: string, previous: char, s: string, t: string)
    requires s != []
    ensures QualifyFrom(qualifier, previous, s + t)
         == QualifyFrom(qualifier, previous, s) + QualifyFrom(qualifier, s[|s| - 1], t)
    decreases |s|
  {
    assert (s + t)[0] == s[0];
    assert (s + t)[1..] == s[1..] + t;
    if |s| > 1 {
      QualifyAppend(qualifier, s[0], s[1..], t);
    } else {
      assert s[1..] == [];
      assert s[1..] + t == t;
    }
  }

  /** An exported name behind a pointer star is qualified. */
  lemma QualifyPointerExample()
    ensures Qualify("pkg", "*Foo") == "*pkg.Foo"
  {
    var q := "pkg";
    assert QualifyFrom(q, 'o', "") == "";
    assert "o"[1..] == "";
    assert QualifyFrom(q, 'o', "o") == "o";
    assert "oo"[1..] == "o";
    assert QualifyFrom(q, 'F', "oo") == "oo";
    assert "Foo"[1..] == "oo";
    assert QualifyFrom(q, '*', "Foo") == "pkg.Foo";
    assert "*Foo"[1..] == "Foo";
  }

  /** An exported type name at the start of the text gets the qualifier. */
  lemma QualifyFooExample()
    ensures Qualify("pkg", "Foo") == "pkg.Foo"
  {
    var q := "pkg";
    assert QualifyFrom(q, 'o', "") == "";
    assert "o"[1..] == "";
    assert QualifyFrom(q, 'o', "o") == "o";
    assert "oo"[1..] == "o";
    assert QualifyFrom(q, 'F', "oo") == "oo";
    assert "Foo"[1..] == "oo";
    assert QualifyFrom(q, Start, "Foo") == "pkg.Foo";
  }

  /** A name that is already qualified keeps its own qualifier. */
  lemma QualifiedNameExample()
    ensures Qualify("pkg", "io.R") == "io.R"
  {
    var q := "pkg";
    assert QualifyFrom(q, '.', "R") == "R" by { assert "R"[1..] == ""; }
    assert QualifyFrom(q, 'o', ".R") == ".R" by { assert ".R"[1..] == "R"; }
    assert QualifyFrom(q, 'i', "o.R") == "o.R" by { assert "o.R"[1..] == ".R"; }
    assert "io.R"[1..] == "o.R";
  }
}
