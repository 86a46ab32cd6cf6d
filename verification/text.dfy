/** The two JavaScript string operations the caption policy is built from:
    `Array.prototype.join` on an array of strings and the one-argument
    `String.prototype.slice`. Each `char` stands for one UTF-16 code unit,
    which is what JavaScript's `length` and `slice` count; a surrogate code
    unit is encoded as some other non-space `char`, whose value the model
    never inspects. */
module JsText {

  /** `t` is a trailing part of `s`. */
  ghost predicate IsSuffix(t: string, s: string) {
    |t| <= |s| && s[|s| - |t|..] == t
  }

  /** Total number of characters over all fragments. */
  function TotalLength(frags: seq<string>): nat {
    if |frags| == 0 then 0 else |frags[0]| + TotalLength(frags[1..])
  }

  /** `frags.join(sep)`: the fragments in order with one `sep` between each
      neighbouring pair; the empty array joins to the empty string. */
  function Join(frags: seq<string>, sep: string): (r: string)
    ensures |frags| == 0 ==> r == ""
    ensures |frags| > 0 ==> |r| == TotalLength(frags) + (|frags| - 1) * |sep|
    ensures |frags| > 0 ==> r[..|frags[0]|] == frags[0]
    ensures |frags| > 0 ==> IsSuffix(frags[|frags| - 1], r)
  {
    if |frags| == 0 then ""
    else if |frags| == 1 then frags[0]
    else frags[0] + sep + Join(frags[1..], sep)
  }

  /** Joining one more fragment onto a non-empty array appends the separator
      and that fragment to the previous join. */
  lemma {:induction false} JoinSnoc(frags: seq<string>, x: string, sep: string)
    requires |frags| > 0
    ensures Join(frags + [x], sep) == Join(frags, sep) + sep + x
  {
    if |frags| == 1 {
      assert (frags + [x])[1..] == [x];
    } else {
      var tail := frags[1..];
      assert (frags + [x])[0] == frags[0];
      assert (frags + [x])[1..] == tail + [x];
      JoinSnoc(tail, x, sep);
      calc {
        Join(frags + [x], sep);
        frags[0] + sep + Join(tail + [x], sep);
        frags[0] + sep + (Join(tail, sep) + sep + x);
        (frags[0] + sep + Join(tail, sep)) + sep + x;
      }
    }
  }

  /** With a non-empty separator the join is empty exactly when there is no
      fragment, or a single empty fragment. */
  lemma JoinEmptyIff(frags: seq<string>, sep: string)
    requires |sep| > 0
    ensures Join(frags, sep) == "" <==> |frags| == 0 || frags == [""]
  {
  }

  /** `s.slice(start)` with the end omitted. A negative start counts back
      from the end and is clamped at 0; a start past the end gives "". */
  function Slice(s: string, start: int): (r: string)
    ensures IsSuffix(r, s)
    ensures start < 0 ==> |r| == if -start <= |s| then -start else |s|
    ensures start >= 0 ==> |r| == if start <= |s| then |s| - start else 0
  {
    var from := if start < 0 then (if |s| + start < 0 then 0 else |s| + start)
                else (if start < |s| then start else |s|);
    s[from..]
  }
}
