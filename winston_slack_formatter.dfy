/** The Winston format that makes stack traces readable in Slack: every entry of
    `info.stack` has each `" + "` turned into a line break. */
module WinstonSlackFormatter {
  import opened JsBuiltins

  const Separator := " + "
  const LineBreak := "\n"

  /** One stack entry rewritten: `entry.split(" + ").join("\n")`. */
  function RewriteFrame(entry: string): (r: string)
    ensures r == ReplaceAll(entry, Separator, LineBreak)
  {
    JoinSplitIsReplaceAll(entry, Separator, LineBreak);
    Join(Split(entry, Separator), LineBreak)
  }

  /** `stack.map(...)` with optional chaining: a `null` or `undefined` entry stays
      `undefined`, any other entry is rewritten, and order and length are kept. */
  function RewriteStack(frames: seq<Option<string>>): (r: seq<Option<string>>)
    ensures |r| == |frames|
    ensures forall i :: 0 <= i < |frames| ==>
      r[i] == if frames[i].None? then None else Some(RewriteFrame(frames[i].value))
  {
    if frames == [] then []
    else [if frames[0].None? then None else Some(RewriteFrame(frames[0].value))] + RewriteStack(frames[1..])
  }

  /** An entry without `" + "` comes out as it went in. */
  lemma FrameWithoutSeparatorUnchanged(entry: string)
    requires !Occurs(entry, Separator)
    ensures RewriteFrame(entry) == entry
  {
  }

  /** For an entry that had no line break of its own, the rewrite loses nothing:
      turning each line break back into `" + "` restores the entry. */
  lemma {:induction false} FrameRewriteReversible(entry: string)
    requires !Occurs(entry, LineBreak)
    ensures ReplaceAll(RewriteFrame(entry), LineBreak, Separator) == entry
    decreases |entry|
  {
    var r := ReplaceAll(entry, Separator, LineBreak);
    if |entry| < |Separator| {
      ReplaceAllWithoutOccurrence(entry, LineBreak, Separator);
    } else if StartsWith(entry, Separator) {
      NoOccurrenceInSuffix(entry, LineBreak, 3);
      FrameRewriteReversible(entry[3..]);
      var tail := ReplaceAll(entry[3..], Separator, LineBreak);
      assert r == LineBreak + tail;
      assert StartsWith(r, LineBreak);
      assert r[1..] == tail;
      assert entry == Separator + entry[3..];
    } else {
      NoOccurrenceInSuffix(entry, LineBreak, 1);
      FrameRewriteReversible(entry[1..]);
      var tail := ReplaceAll(entry[1..], Separator, LineBreak);
      assert r == [entry[0]] + tail;
      assert !StartsWith(entry, LineBreak);
      assert !StartsWith(r, LineBreak);
      assert r[1..] == tail;
    }
  }

  /** A string shorter than `pat` cannot contain it. */
  lemma {:induction false} ShortHasNoOccurrence(s: string, pat: string)
    requires 0 < |pat| && |s| < |pat|
    ensures !Occurs(s, pat)
    decreases |s|
  {
    if |s| > 0 {
      ShortHasNoOccurrence(s[1..], pat);
    }
  }

  /** The first character of a rewritten entry: a line break when the entry starts
      with the separator, its own first character otherwise. */
  lemma RewriteHead(entry: string)
    requires |entry| > 0
    ensures |ReplaceAll(entry, Separator, LineBreak)| > 0
    ensures ReplaceAll(entry, Separator, LineBreak)[0]
         == if StartsWith(entry, Separator) then '\n' else entry[0]
  {
  }

  /** No `" + "` survives the rewrite: a line break cannot be part of one, so none
      can be formed across the places where one was replaced. */
  lemma {:induction false} RewriteLeavesNoSeparator(entry: string)
    ensures !Occurs(RewriteFrame(entry), Separator)
    decreases |entry|
  {
    var r := ReplaceAll(entry, Separator, LineBreak);
    if |entry| < |Separator| {
      ShortHasNoOccurrence(entry, Separator);
    } else if StartsWith(entry, Separator) {
      RewriteLeavesNoSeparator(entry[3..]);
      var tail := ReplaceAll(entry[3..], Separator, LineBreak);
      assert r == LineBreak + tail;
      assert r[1..] == tail;
      assert r[0] == '\n';
      assert !StartsWith(r, Separator);
    } else {
      RewriteLeavesNoSeparator(entry[1..]);
      var tail := ReplaceAll(entry[1..], Separator, LineBreak);
      assert r == [entry[0]] + tail;
      assert r[1..] == tail;
      // a separator at the front of r would need entry to start with one
      RewriteHead(entry[1..]);
      RewriteHead(entry[2..]);
      assert !StartsWith(r, Separator);
    }
  }

  /** Rewriting an entry twice is rewriting it once. */
  lemma RewriteFrameIdempotent(entry: string)
    ensures RewriteFrame(RewriteFrame(entry)) == RewriteFrame(entry)
  {
    RewriteLeavesNoSeparator(entry);
    FrameWithoutSeparatorUnchanged(RewriteFrame(entry));
  }

  /** The value of `info.stack`: missing (or `null`), an array of entries, or a
      string, which is what an error's own `stack` property is. */
  datatype StackValue = Missing | Frames(frames: seq<Option<string>>) | StackText(text: string)

  /** `if (stack)`: an array is truthy even when empty, a string only when non-empty. */
  predicate StackTruthy(stack: StackValue) {
    stack.Frames? || (stack.StackText? && stack.text != "")
  }

  /** The log record a Winston format receives and returns. */
  class Info {
    var level: string
    var message: string
    var stack: StackValue
    /** Every other property of the record. */
    var properties: map<string, string>

    constructor (level: string, message: string, stack: StackValue, properties: map<string, string>)
      ensures this.level == level && this.message == message
      ensures this.stack == stack && this.properties == properties
    {
      this.level := level;
      this.message := message;
      this.stack := stack;
      this.properties := properties;
    }
  }

  /** The format's transform. It rewrites `info.stack` in place and returns the same
      record. A falsy stack is left alone; a non-empty string stack has no `map`, so the
      call throws a `TypeError` before anything is written. */
  method Format(info: Info) returns (r: Result<Info, string>)
    modifies info`stack
    ensures old(info.stack).Missing? || old(info.stack) == StackText("") ==>
      r == Success(info) && info.stack == old(info.stack)
    ensures old(info.stack).Frames? ==>
      r == Success(info) && info.stack == Frames(RewriteStack(old(info.stack).frames))
    ensures old(info.stack).StackText? && old(info.stack).text != "" ==>
      r == Failure("stack.map is not a function") && info.stack == old(info.stack)
  {
    var stack := info.stack;
    if StackTruthy(stack) {
      if stack.StackText? {
        return Failure("stack.map is not a function");
      }
      stack := Frames(RewriteStack(stack.frames));
      info.stack := stack;
    }
    r := Success(info);
  }
}
