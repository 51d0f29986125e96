/**
 * The Python values that reach the modelled code: JSON request fields, arguments of
 * the story stores, and the pieces an f-string formats. Floats are not modelled.
 */
module PyValue {

  /** A Python value. `Container` stands for a list or a dict: the text `str()`
      gives for it, and its number of elements. */
  datatype Value =
    | Null                                // None
    | Bool(b: bool)
    | Int(i: int)
    | Str(s: string)
    | Container(text: string, size: nat)

  /** `Optional[T]`: a result that may be None. */
  datatype Option<+T> = None | Some(value: T)

  /** Python truthiness, as tested by `if x`, `not x`, `x and y` and `x or y`. */
  predicate Truthy(v: Value) {
    match v
    case Null => false
    case Bool(b) => b
    case Int(i) => i != 0
    case Str(s) => s != ""
    case Container(_, n) => n > 0
  }

  /** `isinstance(v, (str, int))`; `bool` is a subclass of `int`. */
  predicate IsStrOrInt(v: Value) {
    v.Bool? || v.Int? || v.Str?
  }

  /** Lists and dicts cannot be dictionary keys. */
  predicate Hashable(v: Value) {
    !v.Container?
  }

  /** `data.get(key)`: the value under `key`, or None when the key is absent. */
  function Get(data: map<string, Value>, key: string): (v: Value)
    ensures key !in data ==> v == Null
    ensures key in data ==> v == data[key]
  {
    if key in data then data[key] else Null
  }

  /** An optional string as a Python value: None stays None (null in a JSON body). It
      is truthy exactly for a non-empty string. */
  function Json(o: Option<string>): (v: Value)
    ensures v == Null <==> o.None?
    ensures Truthy(v) <==> o.Some? && o.value != ""
  {
    match o
    case None => Null
    case Some(s) => Str(s)
  }

  /** `all(key in data for key in keys)`. */
  predicate HasKeys(data: map<string, Value>, keys: seq<string>) {
    forall k :: k in keys ==> k in data
  }

  predicate IsDigit(c: char) {
    '0' <= c <= '9'
  }

  function DigitChar(d: nat): (c: char)
    requires d < 10
    ensures IsDigit(c)
  {
    ('0' as int + d) as char
  }

  function DigitValue(c: char): (d: nat)
    requires IsDigit(c)
    ensures d < 10
  {
    (c as int) - ('0' as int)
  }

  /** Decimal notation of a natural number, as `str(n)` writes it. */
  function NatToString(n: nat): (s: string)
    ensures |s| > 0
    ensures forall k :: 0 <= k < |s| ==> IsDigit(s[k])
    decreases n
  {
    if n < 10 then [DigitChar(n)] else NatToString(n / 10) + [DigitChar(n % 10)]
  }

  /** The number a string of decimal digits denotes. */
  function ParseNat(s: string): nat
    requires forall k :: 0 <= k < |s| ==> IsDigit(s[k])
    decreases |s|
  {
    if s == [] then 0 else 10 * ParseNat(s[..|s| - 1]) + DigitValue(s[|s| - 1])
  }

  /** `str(n)` loses nothing: reading the digits back gives the number. */
  lemma {:induction false} NatToStringRoundTrip(n: nat)
    ensures ParseNat(NatToString(n)) == n
    decreases n
  {
    var s := NatToString(n);
    if n < 10 {
      assert s[..|s| - 1] == [];
    } else {
      var d := n % 10;
      assert s[..|s| - 1] == NatToString(n / 10);
      NatToStringRoundTrip(n / 10);
    }
  }

  /** `str(i)` for an integer. */
  function IntToString(i: int): string {
    if i < 0 then "-" + NatToString(-i) else NatToString(i)
  }

  /** What `{v}` inserts into an f-string, that is `str(v)`. */
  function Format(v: Value): string {
    match v
    case Null => "None"
    case Bool(b) => if b then "True" else "False"
    case Int(i) => IntToString(i)
    case Str(s) => s
    case Container(text, _) => text
  }

  /** One piece of an f-string: literal text, or a `{value}` field. */
  datatype Piece = Lit(text: string) | Hole(value: Value)

  function PieceText(p: Piece): string {
    match p
    case Lit(text) => text
    case Hole(v) => Format(v)
  }

  /** The string an f-string evaluates to: its pieces' texts, in order. */
  function FString(pieces: seq<Piece>): string
    decreases |pieces|
  {
    if pieces == [] then "" else PieceText(pieces[0]) + FString(pieces[1..])
  }

  /** An f-string is its first piece's text followed by the rest. */
  lemma FStringCons(p: Piece, rest: seq<Piece>)
    ensures FString([p] + rest) == PieceText(p) + FString(rest)
  {
    assert ([p] + rest)[1..] == rest;
  }

  /** Joining two piece lists joins their texts. */
  lemma {:induction false} FStringAppend(x: seq<Piece>, y: seq<Piece>)
    ensures FString(x + y) == FString(x) + FString(y)
    decreases |x|
  {
    if x == [] {
      assert x + y == y;
    } else {
      assert (x + y)[1..] == x[1..] + y;
      FStringAppend(x[1..], y);
    }
  }

  /** An f-string starts with the text of its first piece. */
  lemma FStringStartsWith(pieces: seq<Piece>)
    requires pieces != []
    ensures |PieceText(pieces[0])| <= |FString(pieces)|
    ensures FString(pieces)[..|PieceText(pieces[0])|] == PieceText(pieces[0])
  {
  }
}
