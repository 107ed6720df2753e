/**
 * Character classes used by the qualifier and by the export rule of Go
 * ("Identifiers" and "Exported identifiers" in The Go Programming Language
 * Specification), restricted to ASCII, and the joining of strings.
 */
module Runes {

  /** unicode.IsLetter, on ASCII. */
  predicate IsLetter(c: char) {
    'a' <= c <= 'z' || 'A' <= c <= 'Z'
  }

  /** unicode.IsDigit, on ASCII. */
  predicate IsDigit(c: char) {
    '0' <= c <= '9'
  }

  /** unicode.IsUpper, on ASCII; every upper-case rune is a letter. */
  predicate IsUpper(c: char) {
    'A' <= c <= 'Z'
  }

  /** A rune that may occur in an identifier: a letter, a digit or `_`. */
  predicate IsTypeRune(c: char) {
    c == '_' || IsLetter(c) || IsDigit(c)
  }

  /** ast.Ident.IsExported: the first rune is upper case (the empty name is not exported). */
  predicate IsExported(name: string) {
    |name| > 0 && IsUpper(name[0])
  }

  /** strings.Join: the parts with `sep` between neighbours. */
  function Join(sep: string, parts: seq<string>): string
  {
    if |parts| == 0 then ""
    else if |parts| == 1 then parts[0]
    else Join(sep, parts[..|parts| - 1]) + sep + parts[|parts| - 1]
  }

  /** Joining one more part adds the separator and the part, unless it is the first. */
  lemma JoinSnoc(sep: string, parts: seq<string>, x: string)
    ensures Join(sep, parts + [x]) == if parts == [] then x else Join(sep, parts) + sep + x
  {
    assert (parts + [x])[..|parts|] == parts;
  }
}
