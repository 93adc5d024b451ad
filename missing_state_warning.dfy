/**
 * The Themer's check for appearance states that an appearance object lacks.
 *
 * `missingStateWarning` walks the required state names in order and calls
 * its callback once for each name that is not an own property of the
 * appearance object; outside development builds it does nothing. The model
 * returns the sequence of names the callback receives, in call order. The
 * usual callback, `logMissingState`, writes one error line per name.
 */
module MissingStateWarning {
  import opened JsValues

  /** The names among `props` that `items` lacks, in the order of `props`,
      one entry per occurrence. */
  function Missing(items: map<string, JsValue>, props: seq<string>): (r: seq<string>)
    ensures |r| <= |props|
    ensures forall i :: 0 <= i < |r| ==> r[i] !in items
    decreases |props|
  {
    if props == [] then []
    else
      var last := props[|props| - 1];
      Missing(items, props[..|props| - 1]) + (if last in items then [] else [last])
  }

  /** The callback calls of `missingStateWarning`, in order. `items` is a
      value here, so it is only read. */
  method MissingStateWarning(items: map<string, JsValue>, props: seq<string>, isDev: bool)
    returns (reported: seq<string>)
    ensures !isDev ==> reported == []
    ensures isDev ==> reported == Missing(items, props)
  {
    reported := [];
    if !isDev {
      return;
    }
    var i := 0;
    while i < |props|
      invariant 0 <= i <= |props|
      invariant reported == Missing(items, props[..i])
    {
      var prop := props[i];
      if prop !in items {
        reported := reported + [prop];
      }
      assert props[..i + 1][..i] == props[..i];
      i := i + 1;
    }
    assert props[..|props|] == props;
  }

  /** A name is reported exactly when it is required and missing. */
  lemma {:induction false} MissingMembers(items: map<string, JsValue>, props: seq<string>, x: string)
    ensures x in Missing(items, props) <==> x in props && x !in items
    decreases |props|
  {
    if props != [] {
      var init := props[..|props| - 1];
      assert props == init + [props[|props| - 1]];
      MissingMembers(items, init, x);
    }
  }

  /** Each missing name is reported as often as it occurs in `props`;
      present names never are. */
  lemma {:induction false} MissingCounts(items: map<string, JsValue>, props: seq<string>, x: string)
    ensures multiset(Missing(items, props))[x] == if x in items then 0 else multiset(props)[x]
    decreases |props|
  {
    if props != [] {
      var init := props[..|props| - 1];
      assert props == init + [props[|props| - 1]];
      MissingCounts(items, init, x);
    }
  }

  /** Reports follow the order of `props`: the reports for a concatenation
      are the reports for each part, one after the other. */
  lemma {:induction false} MissingAppend(items: map<string, JsValue>, a: seq<string>, b: seq<string>)
    ensures Missing(items, a + b) == Missing(items, a) + Missing(items, b)
    decreases |b|
  {
    if b == [] {
      assert a + b == a;
    } else {
      var init := b[..|b| - 1];
      assert (a + b)[..|a + b| - 1] == a + init;
      assert (a + b)[|a + b| - 1] == b[|b| - 1];
      MissingAppend(items, a, init);
    }
  }

  /** When every required name is present, nothing is reported. */
  lemma {:induction false} AllPresentNothingReported(items: map<string, JsValue>, props: seq<string>)
    requires forall i :: 0 <= i < |props| ==> props[i] in items
    ensures Missing(items, props) == []
    decreases |props|
  {
    if props != [] {
      AllPresentNothingReported(items, props[..|props| - 1]);
    }
  }

  /** One `console.error` call: the message and the appearance object. */
  datatype ErrorLine = ErrorLine(message: string, items: map<string, JsValue>)

  const MessageHead: string := "Themer."
  const MessageMiddle: string := "() is missing a "
  const MessageTail: string := " item"

  /** `logMissingState(call, items)(prop)`. */
  function LogMissingState(call: string, items: map<string, JsValue>, prop: string): (r: ErrorLine)
    ensures r.items == items
    ensures r.message == MessageHead + call + MessageMiddle + prop + MessageTail
    ensures |r.message| == |call| + |prop| + 28
    ensures r.message[..7] == "Themer." && r.message[7..7 + |call|] == call
    ensures r.message[|r.message| - 5..] == " item"
    ensures r.message[|r.message| - 5 - |prop|..|r.message| - 5] == prop
  {
    var m := MessageHead + call + MessageMiddle + prop + MessageTail;
    assert m[..7] == MessageHead;
    assert m[7..7 + |call|] == call;
    assert m[|m| - 5..] == MessageTail;
    assert m[|m| - 5 - |prop|..|m| - 5] == prop;
    ErrorLine(m, items)
  }

  /** Reads the prop name back out of a message for a known call name. */
  function MessageProp(call: string, message: string): Option<string> {
    var head := MessageHead + call + MessageMiddle;
    if |message| >= |head| + |MessageTail|
       && message[..|head|] == head
       && message[|message| - |MessageTail|..] == MessageTail
    then Some(message[|head|..|message| - |MessageTail|])
    else None
  }

  /** The message names the call and the prop, and the prop can be read back. */
  lemma LogMessageRoundTrip(call: string, items: map<string, JsValue>, prop: string)
    ensures MessageProp(call, LogMissingState(call, items, prop).message) == Some(prop)
  {
    var head := MessageHead + call + MessageMiddle;
    var m := LogMissingState(call, items, prop).message;
    assert m == head + prop + MessageTail;
    assert m[..|head|] == head;
    assert m[|m| - |MessageTail|..] == MessageTail;
    assert m[|head|..|m| - |MessageTail|] == prop;
  }
}
