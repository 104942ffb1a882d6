/** Trimming of a session's message history to a number of lines before it is saved. */
module HistoryTrim {

  datatype Message = Message(role: string, content: string)

  function Newlines(s: string): nat {
    if s == "" then 0 else Newlines(s[..|s| - 1]) + (if s[|s| - 1] == '\n' then 1 else 0)
  }

  /** Lines of one message: an empty message has none. */
  function LinesOf(m: Message): nat {
    if m.content == "" then 0 else 1 + Newlines(m.content)
  }

  function Lines(ms: seq<Message>): nat {
    if ms == [] then 0 else LinesOf(ms[0]) + Lines(ms[1..])
  }

  /** What may be saved: anything within the limit, and the last message whatever its length. */
  predicate Fits(ms: seq<Message>, maxLines: nat) {
    |ms| <= 1 || Lines(ms) <= maxLines
  }

  /** Forget the oldest message until the rest fits. */
  function Trimmed(ms: seq<Message>, maxLines: nat): seq<Message> {
    if Fits(ms, maxLines) then ms else Trimmed(ms[1..], maxLines)
  }

  method CountLines(s: string) returns (count: nat)
    ensures count == if s == "" then 0 else 1 + Newlines(s)
  {
    if s == "" { return 0; }
    count := 1;
    for i := 0 to |s|
      invariant count == 1 + Newlines(s[..i])
    {
      assert s[..i + 1][..i] == s[..i];
      if s[i] == '\n' { count := count + 1; }
    }
    assert s[..|s|] == s;
  }

  /** The lines of a text, split at its newlines. */
  function Split(s: string): (lines: seq<string>)
    ensures lines != []
  {
    if s == "" then [""]
    else
      var rest := Split(s[1..]);
      if s[0] == '\n' then [""] + rest else [[s[0]] + rest[0]] + rest[1..]
  }

  function Join(lines: seq<string>): string
    requires lines != []
  {
    if |lines| == 1 then lines[0] else lines[0] + "\n" + Join(lines[1..])
  }

  lemma {:induction false} SplitJoins(s: string)
    ensures Join(Split(s)) == s && forall k | 0 <= k < |Split(s)| :: '\n' !in Split(s)[k]
  {
    if s != "" {
      var rest := Split(s[1..]);
      SplitJoins(s[1..]);
      assert s == [s[0]] + s[1..];
      if s[0] == '\n' {
        assert ([""] + rest)[1..] == rest && "" + "\n" == "\n";
      } else {
        var lines := [[s[0]] + rest[0]] + rest[1..];
        assert lines[1..] == rest[1..];
        if |rest| > 1 {
          assert [s[0]] + rest[0] + "\n" + Join(rest[1..]) == [s[0]] + (rest[0] + "\n" + Join(rest[1..]));
        }
      }
    }
  }

  lemma {:induction false} NewlinesFromTheFront(s: string)
    requires s != ""
    ensures Newlines(s) == (if s[0] == '\n' then 1 else 0) + Newlines(s[1..])
  {
    var n := |s| - 1;
    if n > 0 {
      NewlinesFromTheFront(s[..n]);
      assert s[..n][1..] == s[1..][..n - 1];
    } else {
      assert s[1..] == "" && s[..n] == "";
    }
  }

  /** The lines counted are the lines there are; an empty text, which splits into one empty line, counts none. */
  lemma {:induction false} CountsTheLines(s: string)
    ensures 1 + Newlines(s) == |Split(s)|
  {
    if s != "" {
      NewlinesFromTheFront(s);
      CountsTheLines(s[1..]);
    }
  }

  lemma {:induction false} LinesMonotone(ms: seq<Message>, i: nat)
    requires i <= |ms|
    ensures Lines(ms[i..]) <= Lines(ms)
  {
    if i > 0 {
      LinesMonotone(ms[1..], i - 1);
      assert ms[1..][i - 1..] == ms[i..];
    } else {
      assert ms[0..] == ms;
    }
  }

  /** Forgetting one message at a time stops at the first suffix that fits. */
  lemma {:induction false} TrimmedAt(ms: seq<Message>, start: nat, maxLines: nat)
    requires start <= |ms| && Fits(ms[start..], maxLines)
    requires forall i | 0 <= i < start :: !Fits(ms[i..], maxLines)
    ensures Trimmed(ms, maxLines) == ms[start..]
  {
    assert ms[0..] == ms;
    if start > 0 {
      forall i | 0 <= i < start - 1 ensures !Fits(ms[1..][i..], maxLines) {
        assert ms[1..][i..] == ms[i + 1..];
      }
      assert ms[1..][start - 1..] == ms[start..];
      TrimmedAt(ms[1..], start - 1, maxLines);
    }
  }

  /**
   The loop of SaveSessionMessages, which walks backwards from the newest message and adds up lines,
   keeps exactly what is left when the oldest messages are forgotten until the rest fits.
   */
  method Trim(messages: seq<Message>, maxLines: int) returns (kept: seq<Message>)
    ensures kept == if maxLines > 0 then Trimmed(messages, maxLines) else messages
  {
    kept := messages;
    if maxLines > 0 && |messages| > 0 {
      var totalLines := 0;
      var startIdx := |messages|;
      var i := |messages| - 1;
      while i >= 0
        invariant -1 <= i < |messages| && startIdx == i + 1
        invariant totalLines == Lines(messages[startIdx..])
        invariant startIdx < |messages| ==> Fits(messages[startIdx..], maxLines)
      {
        var lines := CountLines(messages[i].content);
        assert messages[i..][1..] == messages[startIdx..];
        if totalLines + lines > maxLines && startIdx < |messages| {
          break;
        }
        totalLines := totalLines + lines;
        startIdx := i;
        i := i - 1;
      }
      forall k | 0 <= k < startIdx ensures !Fits(messages[k..], maxLines) {
        LinesMonotone(messages[k..], i - k);
        assert messages[k..][i - k..] == messages[i..];
      }
      TrimmedAt(messages, startIdx, maxLines);
      kept := messages[startIdx..];
    }
  }

  /** The longest suffix that fits: it is a suffix, it fits, and no longer suffix does. */
  lemma {:induction false} TrimmedIsLongest(ms: seq<Message>, maxLines: nat)
    ensures var start := |ms| - |Trimmed(ms, maxLines)|;
            && start >= 0 && Trimmed(ms, maxLines) == ms[start..]
            && Fits(Trimmed(ms, maxLines), maxLines)
            && forall i | 0 <= i < start :: !Fits(ms[i..], maxLines)
    ensures ms != [] ==> Trimmed(ms, maxLines) != []
  {
    assert ms[0..] == ms;
    if !Fits(ms, maxLines) {
      TrimmedIsLongest(ms[1..], maxLines);
      var start := |ms| - |Trimmed(ms, maxLines)|;
      assert ms[1..][start - 1..] == ms[start..];
      forall i | 0 <= i < start ensures !Fits(ms[i..], maxLines) {
        if i > 0 { assert ms[1..][i - 1..] == ms[i..]; }
      }
    }
  }

  /** In terms of lines: as many of the newest messages as fit, but at least one. */
  lemma KeptIsWithinTheLimit(ms: seq<Message>, maxLines: nat)
    requires ms != []
    ensures var n := |Trimmed(ms, maxLines)|;
            && 1 <= n <= |ms| && Trimmed(ms, maxLines) == ms[|ms| - n..]
            && (n > 1 ==> Lines(Trimmed(ms, maxLines)) <= maxLines)
            && (n < |ms| ==> Lines(ms[|ms| - n - 1..]) > maxLines)
  {
    TrimmedIsLongest(ms, maxLines);
    var n := |Trimmed(ms, maxLines)|;
    if n < |ms| { assert !Fits(ms[|ms| - n - 1..], maxLines); }
  }

  lemma {:induction false} LinesAppend(a: seq<Message>, b: seq<Message>)
    ensures Lines(a + b) == Lines(a) + Lines(b)
  {
    if a == [] {
      assert a + b == b;
    } else {
      assert (a + b)[1..] == a[1..] + b;
      LinesAppend(a[1..], b);
    }
  }

  /** Saving after every turn loses nothing that saving once at the end would keep. */
  lemma {:induction false} TrimmingIsIncremental(a: seq<Message>, b: seq<Message>, maxLines: nat)
    ensures Trimmed(Trimmed(a, maxLines) + b, maxLines) == Trimmed(a + b, maxLines)
  {
    if !Fits(a, maxLines) {
      LinesAppend(a, b);
      assert (a + b)[1..] == a[1..] + b;
      TrimmingIsIncremental(a[1..], b, maxLines);
    }
  }

  lemma {:induction false} TrimmingIsIdempotent(a: seq<Message>, maxLines: nat)
    ensures Trimmed(Trimmed(a, maxLines), maxLines) == Trimmed(a, maxLines)
  {
    TrimmingIsIncremental(a, [], maxLines);
    assert Trimmed(a, maxLines) + [] == Trimmed(a, maxLines) && a + [] == a;
  }
}
