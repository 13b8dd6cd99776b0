/** JavaScript values the plugin works with: optional object fields, thrown errors,
    template-literal rendering, `Array.prototype.filter`/`join` and `String.prototype.toUpperCase`. */
module Wrappers {

  /** A JavaScript value that may be `undefined` (an absent object key). */
  datatype Option<+T> = None | Some(value: T)

  /** The errors an action can throw. */
  datatype ActionError =
    | IncompatibleActionError   // raised by an action's compatibility gate
    | TypeError                 // `undefined.toUpperCase()`

  /** The completion of a call that may throw. */
  datatype Result<+T> = Ok(value: T) | Throws(error: ActionError)
}

module Text {
  import opened Wrappers

  /** What a template literal prints for an optional string: `${undefined}` is "undefined". */
  function Show(s: Option<string>): string
  {
    match s
    case Some(v) => v
    case None => "undefined"
  }

  /** `parts.filter(p => p !== undefined)`: keeps the defined parts, in order. */
  function Defined(parts: seq<Option<string>>): (r: seq<string>)
    ensures |r| <= |parts|
    ensures forall s :: s in r <==> Some(s) in parts
  {
    if parts == [] then []
    else (if parts[0].Some? then [parts[0].value] else []) + Defined(parts[1..])
  }

  /** Filtering distributes over concatenation, so it keeps the relative order of the parts. */
  lemma {:induction false} DefinedAppend(a: seq<Option<string>>, b: seq<Option<string>>)
    ensures Defined(a + b) == Defined(a) + Defined(b)
  {
    if a == [] {
      assert a + b == b;
    } else {
      assert (a + b)[0] == a[0];
      assert (a + b)[1..] == a[1..] + b;
      DefinedAppend(a[1..], b);
    }
  }

  /** Filtering one part keeps it exactly when it is defined. */
  lemma DefinedSingleton(part: Option<string>)
    ensures Defined([part]) == if part.Some? then [part.value] else []
  {
    assert [part][1..] == [];
  }

  /** `parts.join(sep)`: the parts with one `sep` between neighbours. */
  function Join(parts: seq<string>, sep: string): string
  {
    if |parts| == 0 then ""
    else if |parts| == 1 then parts[0]
    else parts[0] + sep + Join(parts[1..], sep)
  }

  /** Joining a part in front of other parts puts one separator after it. */
  lemma JoinCons(first: string, rest: seq<string>, sep: string)
    requires rest != []
    ensures Join([first] + rest, sep) == first + sep + Join(rest, sep)
  {
    assert ([first] + rest)[1..] == rest;
  }

  /** ASCII `toUpperCase` on one character. */
  function UpperChar(c: char): char
  {
    if 'a' <= c <= 'z' then (c as int - 32) as char else c
  }

  /** `toUpperCase`, restricted to ASCII letters. */
  function Upper(s: string): (r: string)
    ensures |r| == |s|
    ensures forall i :: 0 <= i < |s| ==> r[i] == UpperChar(s[i])
    ensures forall i :: 0 <= i < |r| ==> !('a' <= r[i] <= 'z')
  {
    if s == [] then [] else [UpperChar(s[0])] + Upper(s[1..])
  }

  /** Upper-casing twice is upper-casing once. */
  lemma UpperIdempotent(s: string)
    ensures Upper(Upper(s)) == Upper(s)
  {
  }
}
