/**
 The slice of PHP's value model that the chart builders touch: the dynamic
 values a setter may be handed, the keys of PHP arrays, and the loose `==`
 that `in_array` uses when it looks a value up in a vocabulary of words.
 */
module PhpValues {

  datatype Option<+T> = None | Some(value: T)

  /** The classes the chart builders test for with `is_a`. Every other class
      is `OtherClass`, told apart by an opaque number. */
  datatype ClassName =
    | ChartAreaClass
    | DataTableClass
    | HAxisClass
    | LegendClass
    | TextStyleClass
    | TooltipClass
    | VAxisClass
    | OtherClass(id: nat)

  /** A PHP array key. PHP stores a string key that spells a decimal integer
      ("0", "12", "-3") as that integer; the model leaves it to whoever builds
      an array to follow that convention. */
  datatype Key = IntKey(n: int) | StrKey(s: string)

  /** A PHP value. Floats are reals (only compared, never computed with);
      an array is its ordered list of entries; an object is its class and the
      two arrays its `toArray()` and `values()` methods return. */
  datatype Value =
    | Null
    | Bool(b: bool)
    | Int(i: int)
    | Float(f: real)
    | Str(s: string)
    | Arr(entries: seq<Entry>)
    | Obj(cls: ClassName, toArray: seq<Entry>, values: seq<Entry>)

  datatype Entry = Entry(key: Key, val: Value)

  /** The value `foreach ($a as $k => $v)` binds to `$k`. */
  function KeyValue(k: Key): Value
  {
    match k
    case IntKey(n) => Int(n)
    case StrKey(s) => Str(s)
  }

  /** A vocabulary word: a non-empty string starting with a letter, hence
      neither numeric nor convertible to a non-zero number. Every vocabulary
      the chart builders test against consists of such words. */
  predicate Word(w: string)
  {
    |w| > 0 && (('a' <= w[0] <= 'z') || ('A' <= w[0] <= 'Z'))
  }

  predicate Words(ws: seq<string>)
  {
    forall i | 0 <= i < |ws| :: Word(ws[i])
  }

  /** PHP 5/7 loose equality `v == w` for a vocabulary word `w`:
      null compares as "", a bool compares with the truth value of `w`
      (true, since `w` is neither "" nor "0"), a number compares with the
      number `w` converts to (0, since `w` has no numeric prefix), a string
      compares characterwise (`w` is not numeric), and arrays and objects
      without `__toString` are never equal to a string. */
  function LooseEqualsWord(v: Value, w: string): bool
    requires Word(w)
  {
    match v
    case Null => false
    case Bool(b) => b
    case Int(i) => i == 0
    case Float(f) => f == 0.0
    case Str(s) => s == w
    case Arr(_) => false
    case Obj(_, _, _) => false
  }

  /** `in_array(v, ws)` without the strict flag. */
  predicate LooselyIn(v: Value, ws: seq<string>)
    requires Words(ws)
  {
    exists i | 0 <= i < |ws| :: LooseEqualsWord(v, ws[i])
  }

  /** Loose membership in a non-empty vocabulary of words holds exactly for
      the strings of the vocabulary and for the three values that loosely
      equal every word: true, 0 and 0.0. */
  lemma LooselyInCharacterised(v: Value, ws: seq<string>)
    requires Words(ws) && |ws| > 0
    ensures LooselyIn(v, ws) <==>
              (v.Str? && v.s in ws) || v == Bool(true) || v == Int(0) || v == Float(0.0)
  {
    if v.Str? && v.s in ws {
      var i :| 0 <= i < |ws| && ws[i] == v.s;
      assert LooseEqualsWord(v, ws[i]);
    } else if v == Bool(true) || v == Int(0) || v == Float(0.0) {
      assert LooseEqualsWord(v, ws[0]);
    }
  }
}
