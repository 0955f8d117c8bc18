/**
 * The data carried by the two inline buttons of a preview: the button text
 * `"<action>:<id>"` is built when the preview is sent and split on ':' when
 * the button is pressed.
 */
module CallbackPayload {
  import opened Wrappers

  /** The character between the action and the record id. */
  const SEPARATOR := ':'

  predicate IsHexDigit(c: char) {
    '0' <= c <= '9' || 'a' <= c <= 'f'
  }

  /** The string form of a document id: 24 lower-case hexadecimal digits. */
  predicate IsObjectId(s: string) {
    |s| == 24 && forall k :: 0 <= k < |s| ==> IsHexDigit(s[k])
  }

  type ObjectId = s: string | IsObjectId(s) witness "000000000000000000000000"

  /** How many times `c` occurs in `s`. */
  function Occurrences(s: string, c: char): (n: nat)
    ensures n == 0 <==> c !in s
  {
    if s == [] then 0
    else (if s[0] == c then 1 else 0) + Occurrences(s[1..], c)
  }

  /** JavaScript's `s.split(sep)` for a one-character separator. */
  function Split(s: string, sep: char): (parts: seq<string>)
    ensures |parts| == Occurrences(s, sep) + 1
    ensures forall k :: 0 <= k < |parts| ==> sep !in parts[k]
    ensures parts[0] <= s
    decreases |s|
  {
    if s == [] then [""]
    else
      var rest := Split(s[1..], sep);
      if s[0] == sep then [""] + rest
      else [[s[0]] + rest[0]] + rest[1..]
  }

  /** JavaScript's `parts.join(sep)`: the inverse of Split. */
  function Join(parts: seq<string>, sep: char): string
    requires |parts| > 0
  {
    if |parts| == 1 then parts[0] else parts[0] + [sep] + Join(parts[1..], sep)
  }

  /** An empty first piece contributes only its separator. */
  lemma JoinEmptyHead(parts: seq<string>, sep: char)
    requires |parts| > 0
    ensures Join([""] + parts, sep) == [sep] + Join(parts, sep)
  {
    assert ([""] + parts)[1..] == parts;
  }

  /** A character put in front of the first piece comes out in front of the join. */
  lemma JoinConsHead(c: char, parts: seq<string>, sep: char)
    requires |parts| > 0
    ensures Join([[c] + parts[0]] + parts[1..], sep) == [c] + Join(parts, sep)
  {
    if |parts| > 1 {
      assert ([[c] + parts[0]] + parts[1..])[1..] == parts[1..];
    }
  }

  /** Joining the pieces of a split gives back the original string. */
  lemma {:induction false} JoinSplit(s: string, sep: char)
    ensures Join(Split(s, sep), sep) == s
    decreases |s|
  {
    if s != [] {
      var rest := Split(s[1..], sep);
      JoinSplit(s[1..], sep);
      assert s == [s[0]] + s[1..];
      if s[0] == sep {
        JoinEmptyHead(rest, sep);
      } else {
        JoinConsHead(s[0], rest, sep);
      }
    }
  }

  /** A string without the separator is a single piece. */
  lemma {:induction false} SplitWithoutSeparator(a: string, sep: char)
    requires sep !in a
    ensures Split(a, sep) == [a]
    decreases |a|
  {
    if a != [] {
      assert sep !in a[1..] by { assert forall k :: 0 <= k < |a[1..]| ==> a[1..][k] == a[k + 1]; }
      SplitWithoutSeparator(a[1..], sep);
      assert [a[0]] + a[1..] == a;
    }
  }

  /** A separator-free prefix followed by the separator becomes a piece of its own. */
  lemma {:induction false} SplitAfterPrefix(a: string, b: string, sep: char)
    requires sep !in a
    ensures Split(a + [sep] + b, sep) == [a] + Split(b, sep)
    decreases |a|
  {
    if a == [] {
      assert a + [sep] + b == [sep] + b;
      assert ([sep] + b)[1..] == b;
    } else {
      var s := a + [sep] + b;
      assert s[1..] == a[1..] + [sep] + b;
      assert sep !in a[1..] by { assert forall k :: 0 <= k < |a[1..]| ==> a[1..][k] == a[k + 1]; }
      SplitAfterPrefix(a[1..], b, sep);
      assert [a[0]] + a[1..] == a;
    }
  }

  /** Splitting a join of separator-free pieces gives back the pieces. */
  lemma {:induction false} SplitJoin(parts: seq<string>, sep: char)
    requires |parts| > 0
    requires forall k :: 0 <= k < |parts| ==> sep !in parts[k]
    ensures Split(Join(parts, sep), sep) == parts
    decreases |parts|
  {
    if |parts| == 1 {
      SplitWithoutSeparator(parts[0], sep);
    } else {
      SplitJoin(parts[1..], sep);
      SplitAfterPrefix(parts[0], Join(parts[1..], sep), sep);
      assert [parts[0]] + parts[1..] == parts;
    }
  }

  /** `"<action>:<id>"`, the data of a preview button. */
  function ButtonData(action: string, id: string): (data: string)
    ensures data == Join([action, id], SEPARATOR)
  {
    action + [SEPARATOR] + id
  }

  /** The two names bound from the button data; a missing second piece is `undefined`. */
  datatype Callback = Callback(action: string, recordId: Option<string>)

  /** A join of two or more pieces starts with the first two; a third piece follows a separator. */
  lemma JoinFirstTwo(parts: seq<string>, sep: char)
    requires |parts| >= 2
    ensures parts[0] + [sep] + parts[1] <= Join(parts, sep)
    ensures |parts| == 2 ==> Join(parts, sep) == parts[0] + [sep] + parts[1]
    ensures |parts| > 2 ==>
      && |parts[0]| + 1 + |parts[1]| < |Join(parts, sep)|
      && Join(parts, sep)[|parts[0]| + 1 + |parts[1]|] == sep
  {
    var tail := parts[1..];
    assert tail[0] == parts[1] && tail[1..] == parts[2..];
    if |parts| > 2 {
      assert Join(tail, sep) == parts[1] + [sep] + Join(parts[2..], sep);
      assert Join(parts, sep) == (parts[0] + [sep] + parts[1]) + ([sep] + Join(parts[2..], sep));
    }
  }

  /**
   * What `const [action, recordId] = data.split(":")` binds: the action is the
   * text before the first ':', and the record id is the text between that
   * ':' and the next one, or the end of the data.
   */
  function ParseCallback(data: string): (cb: Callback)
    ensures SEPARATOR !in cb.action && cb.action <= data
    ensures cb.recordId.Some? <==> SEPARATOR in data
    ensures cb.recordId.None? ==> cb.action == data
    ensures cb.recordId.Some? ==>
      && SEPARATOR !in cb.recordId.value
      && cb.action + [SEPARATOR] + cb.recordId.value <= data
      && (|data| == |cb.action| + 1 + |cb.recordId.value|
          || data[|cb.action| + 1 + |cb.recordId.value|] == SEPARATOR)
  {
    var parts := Split(data, SEPARATOR);
    if |parts| == 1 then
      SplitWithoutSeparator(data, SEPARATOR);
      Callback(parts[0], None)
    else
      JoinSplit(data, SEPARATOR);
      JoinFirstTwo(parts, SEPARATOR);
      Callback(parts[0], Some(parts[1]))
  }

  /** Pressing a button hands back exactly the action and the id its data was built from. */
  lemma ParseButtonData(action: string, id: string)
    requires SEPARATOR !in action && SEPARATOR !in id
    ensures ParseCallback(ButtonData(action, id)) == Callback(action, Some(id))
  {
    SplitJoin([action, id], SEPARATOR);
  }

  /** No document id contains the separator, so a button built for a record names it unambiguously. */
  lemma ObjectIdHasNoSeparator(id: ObjectId)
    ensures SEPARATOR !in id
  {
  }
}
