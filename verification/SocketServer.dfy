/**
 One connection of the socket server that stands between the MCP subprocess and the user interface: lines are
 read with a deadline, decoded, handed over a channel pair, and answered in the order in which they came.
 */
module SocketServer {
  import opened Common

  datatype Kind =
    | Permission | Question | PlanApproval | CreateChild | ListChildren | MergeChild
    | CreatePR | PushBranch | GetReviewComments

  /** What ReadString yields: a line, or what had arrived of one when the deadline passed, or an error. */
  datatype Read = Line(text: string) | Timeout(partial: string) | Broken

  /** id is None for a message whose request is missing. */
  datatype Decoded = Garbage | UnknownType | Message(kind: Kind, id: Option<int>)

  /**
   An answer carries the id of the request it was given for, which need not be the one at hand. Closed: the
   answer channel was closed, so that the receive yields an empty answer.
   */
  datatype Outcome = SendTimeout | ReceiveTimeout | Closed | Answered(id: int, granted: bool)

  datatype Reply = Reply(kind: Kind, id: Option<int>, granted: bool)

  /** The kinds whose channels are tested for nil. */
  const TOOLS := {CreateChild, ListChildren, MergeChild, CreatePR, PushBranch, GetReviewComments}

  // ---- Specification ----

  function ReplyTo(channels: set<Kind>, m: Decoded, o: Outcome): seq<Reply> {
    if !m.Message? then []
    else if m.id.None? || (m.kind in TOOLS && m.kind !in channels) then [Reply(m.kind, None, false)]
    else if o.Answered? then [Reply(m.kind, Some(o.id), o.granted)]
    else if o.Closed? then [Reply(m.kind, None, false)]
    else [Reply(m.kind, m.id, false)]
  }

  /** The reads up to an error or to the closing of the server. */
  function Served(input: seq<Read>, closedFrom: nat): (n: nat)
    ensures n <= |input|
  {
    if closedFrom == 0 || input == [] || input[0].Broken? then 0 else 1 + Served(input[1..], closedFrom - 1)
  }

  function Replies(channels: set<Kind>, input: seq<Read>, decode: string -> Decoded, outcomes: nat -> Outcome, n: nat)
    : seq<Reply>
    requires n <= |input|
  {
    if n == 0 then []
    else Replies(channels, input, decode, outcomes, n - 1)
         + if input[n - 1].Line? then ReplyTo(channels, decode(input[n - 1].text), outcomes(n - 1)) else []
  }

  // ---- The connection ----

  class Connection {
    const channels: set<Kind>
    var written: seq<Reply>
    ghost var decoded: seq<string>   // the texts that were decoded, in order

    constructor (channels: set<Kind>)
      ensures this.channels == channels && written == [] && decoded == []
    {
      this.channels, written, decoded := channels, [], [];
    }

    method Write(r: Reply)
      modifies this`written
      ensures written == old(written) + [r]
    {
      written := written + [r];
    }

    /** The three prompt handlers and the generic tool handler. */
    method HandleMessage(kind: Kind, id: Option<int>, o: Outcome)
      modifies this`written
      ensures written == old(written) + ReplyTo(channels, Message(kind, id), o)
      ensures |written| == |old(written)| + 1 && Due(channels, kind, id, o, written[|old(written)|])
    {
      if id.None? {
        Write(Reply(kind, None, false));
        return;
      }
      if kind in TOOLS && kind !in channels {
        Write(Reply(kind, None, false));
        return;
      }
      match o
      case SendTimeout => Write(Reply(kind, id, false));
      case ReceiveTimeout => Write(Reply(kind, id, false));
      case Closed => Write(Reply(kind, None, false));
      case Answered(given, granted) => Write(Reply(kind, Some(given), granted));
    }

    /** handleConnection; the server is seen closed from the closedFrom-th turn of the loop on. */
    method HandleConnection(input: seq<Read>, decode: string -> Decoded, closedFrom: nat, outcomes: nat -> Outcome)
      requires written == [] && decoded == []
      modifies this`written, this`decoded
      ensures written == Replies(channels, input, decode, outcomes, Served(input, closedFrom))
      ensures var served := input[..Served(input, closedFrom)];
              decoded == Seen(served) && (decoded == Sent(served, "") <==> Whole(served, ""))
    {
      LinesArriveExactlyWhenWhole(input[..Served(input, closedFrom)], "");
      var i := 0;
      while i < |input|
        invariant 0 <= i <= |input| && Served(input, closedFrom) >= i
        invariant written == Replies(channels, input, decode, outcomes, i)
        invariant decoded == Seen(input[..i])
      {
        if i >= closedFrom {
          ServedIsBounded(input, closedFrom);
          return;
        }
        ServedContinues(input, closedFrom, i);
        SeenSnoc(input, closedFrom, i);
        match input[i] {
          case Broken => return;
          case Timeout(_) =>
          case Line(text) =>
            decoded := decoded + [text];
            var m := decode(text);
            if m.Message? { HandleMessage(m.kind, m.id, outcomes(i)); }
        }
        i := i + 1;
      }
    }
  }

  lemma {:induction false} ServedIsBounded(input: seq<Read>, closedFrom: nat)
    ensures Served(input, closedFrom) <= closedFrom
  {
    if closedFrom > 0 && input != [] { ServedIsBounded(input[1..], closedFrom - 1); }
  }

  lemma {:induction false} ServedContinues(input: seq<Read>, closedFrom: nat, i: nat)
    requires i < |input| && i < closedFrom && i <= Served(input, closedFrom)
    ensures Served(input, closedFrom) == i <==> input[i].Broken?
  {
    if i > 0 { ServedContinues(input[1..], closedFrom - 1, i - 1); }
  }

  /** Up to an error the lines seen grow by each line read. */
  lemma SeenSnoc(input: seq<Read>, closedFrom: nat, i: nat)
    requires i < |input| && i <= Served(input, closedFrom)
    ensures Seen(input[..i + 1]) == Seen(input[..i]) + (if input[i].Line? then [input[i].text] else [])
  {
    NothingBroken(input, closedFrom, i);
    assert input[..i + 1] == input[..i] + [input[i]];
    SeenAppend(input[..i], input[i]);
  }

  lemma {:induction false} NothingBroken(input: seq<Read>, closedFrom: nat, i: nat)
    requires i <= Served(input, closedFrom)
    ensures forall k | 0 <= k < i :: !input[k].Broken?
  {
    if i > 0 {
      NothingBroken(input[1..], closedFrom - 1, i - 1);
      assert forall k | 0 < k < i :: input[k] == input[1..][k - 1];
    }
  }

  lemma {:induction false} SeenAppend(before: seq<Read>, r: Read)
    requires forall k | 0 <= k < |before| :: !before[k].Broken?
    ensures Seen(before + [r]) == Seen(before) + (if r.Line? then [r.text] else [])
  {
    if before == [] {
      assert [] + [r] == [r] && [r][1..] == [];
    } else {
      assert (before + [r])[1..] == before[1..] + [r];
      SeenAppend(before[1..], r);
    }
  }

  // ---- One reply per message ----

  /** The kinds of the messages among the first n reads. */
  function Kinds(input: seq<Read>, decode: string -> Decoded, n: nat): seq<Kind>
    requires n <= |input|
  {
    if n == 0 then []
    else Kinds(input, decode, n - 1)
         + if input[n - 1].Line? && decode(input[n - 1].text).Message? then [decode(input[n - 1].text).kind] else []
  }

  /** Every message gets exactly one reply, of its own kind and in its turn; nothing else is written. */
  lemma {:induction false} OneReplyPerMessage(channels: set<Kind>, input: seq<Read>, decode: string -> Decoded,
                                              outcomes: nat -> Outcome, n: nat)
    requires n <= |input|
    ensures var rs := Replies(channels, input, decode, outcomes, n);
            |rs| == |Kinds(input, decode, n)|
            && forall k | 0 <= k < |rs| :: rs[k].kind == Kinds(input, decode, n)[k]
  {
    if n > 0 { OneReplyPerMessage(channels, input, decode, outcomes, n - 1); }
  }

  /** Whatever is granted was granted by an answer that arrived on the channel. */
  lemma {:induction false} GrantsComeFromAnswers(channels: set<Kind>, input: seq<Read>, decode: string -> Decoded,
                                                 outcomes: nat -> Outcome, n: nat, k: nat) returns (i: nat)
    requires n <= |input| && k < |Replies(channels, input, decode, outcomes, n)|
    requires Replies(channels, input, decode, outcomes, n)[k].granted
    ensures i < n && input[i].Line? && outcomes(i).Answered? && outcomes(i).granted
    ensures Replies(channels, input, decode, outcomes, n)[k].id == Some(outcomes(i).id)
    ensures var m := decode(input[i].text);
            m.Message? && m.kind == Replies(channels, input, decode, outcomes, n)[k].kind
  {
    var before := Replies(channels, input, decode, outcomes, n - 1);
    if k < |before| {
      i := GrantsComeFromAnswers(channels, input, decode, outcomes, n - 1, k);
    } else {
      i := n - 1;
    }
  }

  predicate IsMessage(r: Read, decode: string -> Decoded) {
    r.Line? && decode(r.text).Message?
  }

  /** The reads of the messages among the first n reads. */
  function Messages(input: seq<Read>, decode: string -> Decoded, n: nat): seq<nat>
    requires n <= |input|
  {
    if n == 0 then []
    else Messages(input, decode, n - 1) + if IsMessage(input[n - 1], decode) then [n - 1] else []
  }

  lemma {:induction false} MessagesAreExactly(input: seq<Read>, decode: string -> Decoded, n: nat)
    requires n <= |input|
    ensures var ms := Messages(input, decode, n);
            && (forall j, k | 0 <= j < k < |ms| :: ms[j] < ms[k])
            && (forall i: nat :: i in ms <==> i < n && IsMessage(input[i], decode))
  {
    if n > 0 {
      hide IsMessage;
      var before := Messages(input, decode, n - 1);
      MessagesAreExactly(input, decode, n - 1);
      assert forall j | 0 <= j < |before| :: before[j] in before;
      if !IsMessage(input[n - 1], decode) { assert before + [] == before; }
    }
  }

  /** What a message with this kind and id is due, by what happened on its channel. */
  predicate Due(channels: set<Kind>, kind: Kind, id: Option<int>, o: Outcome, r: Reply) {
    var reachable := id.Some? && (kind in {Permission, Question, PlanApproval} || kind in channels);
    && r.kind == kind
    && (!reachable ==> r.id == None && !r.granted)
    && (reachable && o.Answered? ==> r.id == Some(o.id) && r.granted == o.granted)
    && (reachable && (o.SendTimeout? || o.ReceiveTimeout?) ==> r.id == id && !r.granted)
    && (reachable && o.Closed? ==> r.id == None && !r.granted)
  }

  /**
   The k-th reply belongs to the k-th message: an answer that arrives is passed on with its own id and its grant, a
   timeout is refused under the request's id, and what cannot be asked is refused without one.
   */
  lemma {:induction false} AnswersArePassedOn(channels: set<Kind>, input: seq<Read>, decode: string -> Decoded,
                                              outcomes: nat -> Outcome, n: nat, k: nat) returns (i: nat)
    requires n <= |input| && k < |Replies(channels, input, decode, outcomes, n)|
    ensures k < |Messages(input, decode, n)| && i == Messages(input, decode, n)[k] && i < n && input[i].Line?
    ensures var m := decode(input[i].text);
            m.Message? && Due(channels, m.kind, m.id, outcomes(i), Replies(channels, input, decode, outcomes, n)[k])
    ensures |Replies(channels, input, decode, outcomes, n)| == |Messages(input, decode, n)|
  {
    hide Due, ReplyTo;
    ReplyIsDue(channels, decode, input[n - 1], outcomes(n - 1));
    MessagesAreReplied(channels, input, decode, outcomes, n);
    MessagesAreReplied(channels, input, decode, outcomes, n - 1);
    if k < |Replies(channels, input, decode, outcomes, n - 1)| {
      i := AnswersArePassedOn(channels, input, decode, outcomes, n - 1, k);
    } else {
      i := n - 1;
    }
  }

  lemma ReplyIsDue(channels: set<Kind>, decode: string -> Decoded, r: Read, o: Outcome)
    ensures r.Line? ==>
              var m := decode(r.text);
              var replies := ReplyTo(channels, m, o);
              |replies| == (if m.Message? then 1 else 0) && (m.Message? ==> Due(channels, m.kind, m.id, o, replies[0]))
  {
  }

  lemma {:induction false} MessagesAreReplied(channels: set<Kind>, input: seq<Read>, decode: string -> Decoded,
                                              outcomes: nat -> Outcome, n: nat)
    requires n <= |input|
    ensures |Replies(channels, input, decode, outcomes, n)| == |Messages(input, decode, n)|
  {
    if n > 0 {
      hide ReplyTo, Due;
      ReplyIsDue(channels, decode, input[n - 1], outcomes(n - 1));
      MessagesAreReplied(channels, input, decode, outcomes, n - 1);
    }
  }

  /** The connection serves up to the first error or the closing of the server, whichever comes first. */
  lemma {:induction false} ServedExactly(input: seq<Read>, closedFrom: nat)
    ensures var n := Served(input, closedFrom);
            && n <= closedFrom && (forall k | 0 <= k < n :: !input[k].Broken?)
            && (n == |input| || n == closedFrom || input[n].Broken?)
  {
    if closedFrom > 0 && input != [] && !input[0].Broken? {
      ServedExactly(input[1..], closedFrom - 1);
      var n := Served(input, closedFrom);
      assert forall k | 0 < k < n :: input[k] == input[1..][k - 1];
    }
  }

  // ---- Lines that a deadline cuts ----

  /** The lines as the peer wrote them; cut is what was already read of the next one. */
  function Sent(input: seq<Read>, cut: string): seq<string> {
    if input == [] || input[0].Broken? then []
    else match input[0]
      case Line(text) => [cut + text] + Sent(input[1..], "")
      case Timeout(partial) => Sent(input[1..], cut + partial)
  }

  /** The lines as the server sees them: what was read before a deadline is lost. */
  function Seen(input: seq<Read>): seq<string> {
    if input == [] || input[0].Broken? then []
    else match input[0]
      case Line(text) => [text] + Seen(input[1..])
      case Timeout(_) => Seen(input[1..])
  }

  /** No line is completed after a deadline passed in the middle of it. */
  predicate Whole(input: seq<Read>, cut: string) {
    if input == [] || input[0].Broken? then true
    else match input[0]
      case Line(_) => cut == "" && Whole(input[1..], "")
      case Timeout(partial) => Whole(input[1..], cut + partial)
  }

  /** The server sees the lines that were sent exactly when no deadline passed inside a line. */
  lemma {:induction false} LinesArriveExactlyWhenWhole(input: seq<Read>, cut: string)
    ensures |Seen(input)| == |Sent(input, cut)|
    ensures Seen(input) == Sent(input, cut) <==> Whole(input, cut)
    decreases |input|
  {
    if input != [] && !input[0].Broken? {
      match input[0]
      case Timeout(partial) => LinesArriveExactlyWhenWhole(input[1..], cut + partial);
      case Line(text) =>
        LinesArriveExactlyWhenWhole(input[1..], "");
        var seen, sent := Seen(input), Sent(input, cut);
        assert seen[1..] == Seen(input[1..]) && sent[1..] == Sent(input[1..], "");
        assert seen[0] == sent[0] <==> cut == "" by {
          assert |sent[0]| == |cut| + |seen[0]|;
        }
        assert seen == [seen[0]] + seen[1..] && sent == [sent[0]] + sent[1..];
    }
  }

  /** A line that a deadline cut in two arrives without its beginning. */
  lemma CutLineLosesItsBeginning(partial: string, text: string)
    requires partial != ""
    ensures var input := [Timeout(partial), Line(text)];
            Sent(input, "") == [partial + text] && Seen(input) == [text] && !Whole(input, "")
  {
    var input := [Timeout(partial), Line(text)];
    assert input[1..] == [Line(text)] && [Line(text)][1..] == [];
    assert "" + partial == partial;
    assert Sent([Line(text)], partial) == [partial + text] && !Whole([Line(text)], partial);
    assert Seen([Line(text)]) == [text];
  }
}
