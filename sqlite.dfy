/**
 * The part of SQLite's behaviour the tracker depends on: how a bound JavaScript
 * parameter is stored under a column's type affinity, how `column = ?` compares, and
 * what a write statement reports back (`this.lastID`, `this.changes`).
 */
module Sqlite {
  import opened Js
  import opened Wrappers

  /** A stored SQLite value. */
  datatype Cell = SNull | SInt(i: int) | SText(t: string)

  /**
   * A parameter stored in, or compared with, a TEXT column: numbers become their
   * decimal text; `null`, `undefined` and `NaN` bind as NULL.
   */
  function TextAffinity(v: Value): (c: Cell)
    ensures c == SNull <==> !(v.Num? || v.Str?)
  {
    match v
    case Num(n) => SText(DecimalString(n))
    case Str(s) => SText(s)
    case _ => SNull
  }

  /**
   * A parameter stored in, or compared with, an INTEGER, DATE or DATETIME column: a
   * text that is a well-formed integer literal becomes that integer, any other text is
   * kept as text.
   */
  function IntegerAffinity(v: Value): (c: Cell)
    ensures c == SNull <==> !(v.Num? || v.Str?)
  {
    match v
    case Num(n) => SInt(n)
    case Str(s) => (match IntegerLiteral(s) case Some(k) => SInt(k) case None => SText(s))
    case _ => SNull
  }

  /** `column = ?`: NULL on either side compares as not equal. */
  predicate ColumnEq(stored: Cell, param: Cell) {
    stored != SNull && stored == param
  }

  /** `WHERE id = ?` on an INTEGER PRIMARY KEY holding `key`. */
  predicate KeyMatches(key: int, param: Value) {
    IntegerAffinity(param) == SInt(key)
  }

  /** `WHERE id != ?` on an INTEGER PRIMARY KEY holding `key`: false when the parameter is NULL. */
  predicate KeyDiffers(key: int, param: Value) {
    IntegerAffinity(param) != SNull && IntegerAffinity(param) != SInt(key)
  }

  /** A stored value as the driver hands it back to JavaScript. */
  function ToJs(c: Cell): Value {
    match c
    case SNull => Null
    case SInt(i) => Num(i)
    case SText(t) => Str(t)
  }

  /** What `run` resolves with: the last inserted row id and the number of rows changed. */
  datatype RunResult = RunResult(id: int, changes: nat)

  /** A key is matched by the number itself and by its decimal text, as a path parameter carries it. */
  lemma KeyMatchesDecimal(k: int)
    ensures KeyMatches(k, Num(k)) && KeyMatches(k, Str(DecimalString(k)))
  {
    DecimalRoundTrip(k);
  }

  /** A text parameter matches a key exactly when it is an integer literal denoting that key. */
  lemma KeyMatchesText(k: int, p: string)
    ensures KeyMatches(k, Str(p)) <==> IntegerLiteral(p) == Some(k)
  {
  }

  /** Whatever matches key `k` is loosely equal, in JavaScript, to the number `k`. */
  lemma KeyMatchesLoosely(k: int, v: Value)
    requires KeyMatches(k, v)
    ensures LooseEq(Num(k), v)
  {
    if v.Str? {
      NumberMeetsLiteral(k, v.s);
    }
  }

  /**
   * A number or a text stored under INTEGER affinity reads back loosely equal to it,
   * and identical to it unless it was a text that the affinity turned into a number.
   */
  lemma IntegerAffinityEcho(v: Value)
    requires v.Num? || v.Str?
    ensures LooseEq(ToJs(IntegerAffinity(v)), v)
    ensures ToJs(IntegerAffinity(v)) == v <==> v.Num? || IntegerLiteral(v.s).None?
  {
    if v.Str? && IntegerLiteral(v.s).Some? {
      NumberMeetsLiteral(IntegerLiteral(v.s).value, v.s);
    }
  }

  /** At most one key matches a parameter, and for a key to differ the parameter must not be NULL. */
  lemma KeyMatchUnique(k: int, j: int, v: Value)
    ensures KeyMatches(k, v) && KeyMatches(j, v) ==> k == j
    ensures KeyDiffers(k, v) ==> !KeyMatches(k, v) && v != Null && v != Undefined
  {
  }

  /** A text stored through TEXT affinity reads back as the same text. */
  lemma TextRoundTrip(v: Value)
    requires v.Str?
    ensures ToJs(TextAffinity(v)) == v
  {
  }
}
