/** Text as JavaScript sees it: a sequence of UTF-16 code units. */
module Text {
  type Unit = u: int | 0 <= u < 0x1_0000
  type Text = seq<Unit>

  const NEWLINE: Unit := 10
  const BACKTICK: Unit := 96
  const STAR: Unit := 42
  const UNDERSCORE: Unit := 95
  const TILDE: Unit := 126
  const OPEN_PAREN: Unit := 40
  const CLOSE_PAREN: Unit := 41

  predicate IsLowSurrogate(u: Unit) { 0xdc00 <= u <= 0xdfff }
  predicate IsHighSurrogate(u: Unit) { 0xd800 <= u <= 0xdbff }

  /** Character classes of the engine's regular expressions, left open. */
  datatype Classes = Classes(word: Text -> bool, space: Unit -> bool)

  /** What every space class satisfies: a line break is a space. */
  predicate Lawful(classes: Classes) { classes.space(NEWLINE) }

  /** How often `u` occurs in `s`. */
  function Count(s: Text, u: Unit): nat {
    if s == [] then 0 else Count(s[..|s| - 1], u) + if s[|s| - 1] == u then 1 else 0
  }
}
