/** Decoded JSON documents as the Python runtime sees them after `json.load`,
    the exceptions that matter to the scorer, and the two Python operations
    the record check applies to them: the membership test `key in x` and
    the subscript `x[key]`. */
module PyJson {

  /** A value produced by the JSON decoder: None, bool, int, float, str,
      list or dict (JSON object keys are always strings). */
  datatype Json =
    | Null
    | Bool(b: bool)
    | Int(i: int)
    | Float(f: real)
    | Str(s: string)
    | Arr(items: seq<Json>)
    | Obj(fields: map<string, Json>)

  /** The exceptions that can reach the handler of the scan loop. The named
      ones are those the scan's behaviour singles out; `IOError` stands for
      `OSError` and all its subclasses (`FileNotFoundError`, `IsADirectoryError`,
      ...), which the `except` clause catches. `Other` stands for any
      further class the loader may raise (a `ValueError` for an over-long
      integer literal, a `MemoryError`, ...), identified by its name. */
  datatype Exception =
    | JSONDecodeError     // the decoder rejected the text
    | IOError             // open/read failed (OSError: missing file, a directory, permissions)
    | KeyError            // a dict subscript with an absent key
    | TypeError           // membership or subscript on a value that does not support it
    | UnicodeDecodeError  // the file's bytes are not valid text
    | RecursionError      // the decoder's recursion limit on deeply nested input
    | Other(name: string) // any class outside the OSError, JSONDecodeError and KeyError hierarchies

  /** The outcome of evaluating a Python expression: a value, or a raised
      exception. Failure-compatible, so `:-` propagates a raise the way
      Python does. */
  datatype Eval<+T> = Done(value: T) | Raise(error: Exception) {
    predicate IsFailure() { Raise? }
    function PropagateFailure<U>(): Eval<U>
      requires Raise?
    {
      Raise(error)
    }
    function Extract(): T
      requires Done?
    {
      value
    }
  }

  /** `isinstance(v, str)`. */
  predicate StrInstance(v: Json) { v.Str? }

  /** `isinstance(v, int)`: `bool` is a subclass of `int`, so booleans pass. */
  predicate IntInstance(v: Json) { v.Int? || v.Bool? }

  /** `isinstance(v, list)`. */
  predicate ListInstance(v: Json) { v.Arr? }

  /** `isinstance(v, dict)`. */
  predicate DictInstance(v: Json) { v.Obj? }

  /** Python's `needle in hay` for two strings: a substring test. */
  predicate IsSubstring(needle: string, hay: string)
    decreases |hay|
  {
    needle <= hay || (|hay| > 0 && IsSubstring(needle, hay[1..]))
  }

  /** `needle` occurs in `hay` at position `i`, so `needle in hay` holds. */
  lemma {:induction false} SubstringAt(needle: string, hay: string, i: nat)
    requires i <= |hay| && needle <= hay[i..]
    ensures IsSubstring(needle, hay)
  {
    if i > 0 {
      assert hay[1..][i - 1..] == hay[i..];
      SubstringAt(needle, hay[1..], i - 1);
    }
  }

  /** Conversely, `needle in hay` gives a position where `needle` occurs. */
  lemma {:induction false} SubstringPosition(needle: string, hay: string) returns (i: nat)
    requires IsSubstring(needle, hay)
    ensures i <= |hay| && needle <= hay[i..]
    decreases |hay|
  {
    if needle <= hay {
      i := 0;
    } else {
      var j := SubstringPosition(needle, hay[1..]);
      assert hay[1..][j..] == hay[j + 1..];
      i := j + 1;
    }
  }

  /** `IsSubstring` is Python's substring test: `needle in hay` holds exactly
      when `needle` occurs in `hay` at some position. */
  lemma SubstringIff(needle: string, hay: string)
    ensures IsSubstring(needle, hay) <==> exists i :: 0 <= i <= |hay| && needle <= hay[i..]
  {
    if IsSubstring(needle, hay) {
      var i := SubstringPosition(needle, hay);
    }
    forall i | 0 <= i <= |hay| && needle <= hay[i..] ensures IsSubstring(needle, hay) {
      SubstringAt(needle, hay, i);
    }
  }

  /** The values that support `key in v` with a string key. */
  predicate IsContainer(v: Json) { v.Obj? || v.Arr? || v.Str? }

  /** The truth value of `key in v` on a container: a dict tests its keys,
      a list compares its elements with the string, a string looks for a
      substring. False on anything else (where Python raises instead). */
  predicate In(v: Json, key: string) {
    match v
    case Obj(m) => key in m
    case Arr(xs) => Str(key) in xs
    case Str(s) => IsSubstring(key, s)
    case _ => false
  }

  /** Every key of `keys` is `in` the value. */
  predicate AllIn(v: Json, keys: seq<string>) {
    forall i :: 0 <= i < |keys| ==> In(v, keys[i])
  }

  /** Evaluating `key in v`: a TypeError on a value that is not a container. */
  function Contains(v: Json, key: string): Eval<bool> {
    if IsContainer(v) then Done(In(v, key)) else Raise(TypeError)
  }

  /** Evaluating `all(key in v for key in keys)`: left to right, stopping at
      the first key that is absent, and raising as soon as a membership test
      raises. */
  function ContainsAll(v: Json, keys: seq<string>): (r: Eval<bool>)
    ensures keys != [] ==> (r.Raise? <==> !IsContainer(v))
    ensures r.Raise? ==> r.error == TypeError
    ensures r == Done(true) <==> AllIn(v, keys)
    ensures r == Done(false) <==> IsContainer(v) && !AllIn(v, keys)
    decreases |keys|
  {
    if keys == [] then Done(true)
    else
      var present :- Contains(v, keys[0]);
      if !present then Done(false) else ContainsAll(v, keys[1..])
  }

  /** Evaluating `v[key]` with a string key: a dict yields the value or
      raises KeyError; a list or string raises TypeError (its indices must be
      integers), and so does every other value (not subscriptable). */
  function Index(v: Json, key: string): Eval<Json> {
    match v
    case Obj(m) => if key in m then Done(m[key]) else Raise(KeyError)
    case _ => Raise(TypeError)
  }
}
