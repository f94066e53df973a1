/// JavaScript values the client passes between its parts: empty slots
/// (`null` / `undefined`), thrown values, `String.prototype.split`,
/// element access on arrays, template-literal interpolation and
/// `toLowerCase` on ASCII text.
module JsValues {

  /** A slot of type `T | null` or `T | undefined`. */
  datatype Option<T> = None | Some(value: T)

  /** A thrown value: an `Error` (or subclass) object, which carries a
      `message`, or any other value, which does not. */
  datatype Thrown = ErrorObject(message: string) | NonError

  /** The outcome of a call that may throw (or of awaiting a promise that
      may reject). */
  datatype Result<T> = Ok(value: T) | Threw(thrown: Thrown)

  /** JavaScript truthiness of a `string | null | undefined`: the empty
      string is falsy like the empty slot. */
  predicate Truthy(s: Option<string>) {
    s.Some? && s.value != ""
  }

  /** `${x}` for `x: string | undefined`: an absent value prints as
      the word "undefined". */
  function Interpolate(s: Option<string>): string {
    match s
    case Some(v) => v
    case None => "undefined"
  }

  /** `a[k]` on an array of strings: `undefined` past the end. */
  function At(a: seq<string>, k: nat): Option<string> {
    if k < |a| then Some(a[k]) else None
  }

  /** `t` occurs in `s` starting at index `i`. */
  predicate OccursAt(s: string, t: string, i: int) {
    0 <= i && i + |t| <= |s| && s[i..i + |t|] == t
  }

  /** `s.includes(t)`. */
  predicate Contains(s: string, t: string) {
    exists i | 0 <= i <= |s| :: OccursAt(s, t, i)
  }

  lemma OccursAtShift(s: string, t: string, j: nat)
    requires |s| > 0
    ensures OccursAt(s[1..], t, j) <==> OccursAt(s, t, j + 1)
  {
    if j + |t| <= |s| - 1 {
      assert s[1..][j..j + |t|] == s[j + 1..j + 1 + |t|];
    }
  }

  /** `s.indexOf(t)` for a non-empty `t`, with `None` for -1: the first
      index at which `t` occurs. */
  function IndexOf(s: string, t: string): (r: Option<nat>)
    requires t != ""
    ensures r.Some? ==> OccursAt(s, t, r.value)
    ensures r.Some? ==> forall j :: 0 <= j < r.value ==> !OccursAt(s, t, j)
    ensures r.None? ==> forall j :: !OccursAt(s, t, j)
    decreases |s|
  {
    if |s| < |t| then None
    else if s[..|t|] == t then Some(0)
    else
      var rest := IndexOf(s[1..], t);
      assert forall j: nat :: OccursAt(s[1..], t, j) <==> OccursAt(s, t, j + 1) by {
        forall j: nat ensures OccursAt(s[1..], t, j) <==> OccursAt(s, t, j + 1) {
          OccursAtShift(s, t, j);
        }
      }
      assert forall j :: OccursAt(s, t, j) ==> j == 0 || OccursAt(s[1..], t, j - 1);
      match rest
      case None => None
      case Some(k) => Some(k + 1)
  }

  /** `s.split(sep)` for a non-empty separator (and no limit): the pieces
      between successive non-overlapping occurrences of `sep`, scanning
      from the left. */
  function Split(s: string, sep: string): (r: seq<string>)
    requires sep != ""
    ensures |r| >= 1
    decreases |s|
  {
    match IndexOf(s, sep)
    case None => [s]
    case Some(i) => [s[..i]] + Split(s[i + |sep|..], sep)
  }

  /** `pieces.join(sep)`: the reference that `Split` inverts. */
  function Join(pieces: seq<string>, sep: string): string {
    if |pieces| == 0 then ""
    else if |pieces| == 1 then pieces[0]
    else pieces[0] + sep + Join(pieces[1..], sep)
  }

  /** Splitting and re-joining gives back the string, and no piece holds
      the separator. */
  lemma SplitJoin(s: string, sep: string)
    requires sep != ""
    ensures Join(Split(s, sep), sep) == s
    ensures forall k :: 0 <= k < |Split(s, sep)| ==> !Contains(Split(s, sep)[k], sep)
  {
    JoinSplit(s, sep);
    PiecesHaveNoSeparator(s, sep);
  }

  lemma {:induction false} JoinSplit(s: string, sep: string)
    requires sep != ""
    ensures Join(Split(s, sep), sep) == s
    decreases |s|
  {
    match IndexOf(s, sep)
    case None =>
    case Some(i) =>
      var rest := s[i + |sep|..];
      var pieces := Split(s, sep);
      assert pieces == [s[..i]] + Split(rest, sep);
      assert pieces[1..] == Split(rest, sep);
      JoinSplit(rest, sep);
      assert s == s[..i] + sep + rest by {
        assert s[i..i + |sep|] == sep;
      }
  }

  lemma {:induction false} PiecesHaveNoSeparator(s: string, sep: string)
    requires sep != ""
    ensures forall k :: 0 <= k < |Split(s, sep)| ==> !Contains(Split(s, sep)[k], sep)
    decreases |s|
  {
    match IndexOf(s, sep)
    case None =>
      assert !Contains(s, sep);
    case Some(i) =>
      var rest := s[i + |sep|..];
      var pieces := Split(s, sep);
      assert pieces == [s[..i]] + Split(rest, sep);
      PiecesHaveNoSeparator(rest, sep);
      NothingBeforeFirst(s, sep, i);
      forall k | 0 <= k < |pieces| ensures !Contains(pieces[k], sep) {
        if k > 0 {
          assert pieces[k] == Split(rest, sep)[k - 1];
        }
      }
  }

  /** The text before the first occurrence does not hold the separator. */
  lemma NothingBeforeFirst(s: string, sep: string, i: nat)
    requires sep != "" && i <= |s|
    requires forall j :: 0 <= j < i ==> !OccursAt(s, sep, j)
    ensures !Contains(s[..i], sep)
  {
    forall j | 0 <= j <= i ensures !OccursAt(s[..i], sep, j) {
      if j + |sep| <= i {
        assert !OccursAt(s, sep, j);
        assert s[..i][j..j + |sep|] == s[j..j + |sep|];
      }
    }
  }

  /** An occurrence with none before it is the one `indexOf` finds. */
  lemma IndexOfFirst(s: string, sep: string, i: nat)
    requires sep != ""
    requires OccursAt(s, sep, i)
    requires forall j :: 0 <= j < i ==> !OccursAt(s, sep, j)
    ensures IndexOf(s, sep) == Some(i)
  {
    var r := IndexOf(s, sep);
    if r.Some? {
      var k := r.value;
      assert k < i ==> !OccursAt(s, sep, k);
      assert i < k ==> !OccursAt(s, sep, i);
    }
  }

  /** When `sep` occurs first at `i`, the first piece is everything before
      `i` and the rest is the split of what follows the occurrence. */
  lemma SplitAtFirst(s: string, sep: string, i: nat)
    requires sep != ""
    requires OccursAt(s, sep, i)
    requires forall j :: 0 <= j < i ==> !OccursAt(s, sep, j)
    ensures Split(s, sep) == [s[..i]] + Split(s[i + |sep|..], sep)
  {
    IndexOfFirst(s, sep, i);
  }

  /** Without an occurrence, `split` yields the whole string. */
  lemma SplitNone(s: string, sep: string)
    requires sep != ""
    requires forall j :: !OccursAt(s, sep, j)
    ensures Split(s, sep) == [s]
  {
  }

  /** `s.split(sep)[1]` is defined exactly when `sep` occurs in `s`. */
  lemma SecondPieceIffSeparator(s: string, sep: string)
    requires sep != ""
    ensures At(Split(s, sep), 1).Some? <==> Contains(s, sep)
  {
    match IndexOf(s, sep)
    case None =>
    case Some(i) =>
      assert OccursAt(s, sep, i);
  }

  /** A one-character string occurs exactly where that character is. */
  lemma OccursAtChar(s: string, c: char, j: int)
    ensures OccursAt(s, [c], j) <==> 0 <= j < |s| && s[j] == c
  {
    if 0 <= j < |s| {
      assert s[j..j + 1] == [s[j]];
    }
  }

  /** String.prototype.toLowerCase restricted to ASCII letters. */
  function LowerChar(c: char): char {
    if 'A' <= c <= 'Z' then (c as int + 32) as char else c
  }

  function ToLower(s: string): string {
    seq(|s|, i requires 0 <= i < |s| => LowerChar(s[i]))
  }
}
