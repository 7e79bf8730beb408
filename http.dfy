/**
 * What the client hands to the network and what comes back. The network
 * itself is abstract: a round trip is a value chosen by whoever supplies
 * the transport.
 */
module Http {
  import opened Wrappers
  import opened Decimal
  import opened UrlValues

  datatype Url = Url(scheme: string, host: string, path: string)

  /** A request as the transport sees it: method (verb), target and form parameters. */
  datatype Wire = Wire(verb: string, url: Url, params: Values)

  datatype Reply = Reply(status: int, body: string)

  /**
   * The result of one `http.Client.Do`: an error (possibly together with a
   * response, as on a failed redirect), or a response.
   */
  datatype RoundTrip = Failed(err: string, partial: Option<Reply>) | Received(reply: Reply)

  function ReplyOf(rt: RoundTrip): Option<Reply> {
    match rt
    case Failed(_, partial) => partial
    case Received(reply) => Some(reply)
  }

  /**
   * An `*http.Response` whose body can be closed. `closes` counts the calls
   * to `Body.Close`, so that closing exactly once can be stated.
   */
  class Response {
    const status: int
    const body: string
    var closes: nat

    constructor (reply: Reply)
      ensures status == reply.status && body == reply.body && closes == 0
    {
      status := reply.status;
      body := reply.body;
      closes := 0;
    }

    method Close()
      modifies this
      ensures closes == old(closes) + 1
    {
      closes := closes + 1;
    }
  }

  const CodePrefix := "Unexpected response code: "

  /** The error text of a reply whose status is not 200: `Unexpected response code: %d (%s)`. */
  function UnexpectedCode(status: int, body: string): (e: string)
    ensures |e| > |CodePrefix| && e[..|CodePrefix|] == CodePrefix
    ensures e[|e| - 1] == ')'
  {
    CodePrefix + IntToString(status) + " (" + body + ")"
  }

  /** How the response gate judges a round trip. */
  datatype Verdict = Passed(reply: Reply) | Rejected(err: string)

  /** The three-way classification of the response gate. */
  function Classify(rt: RoundTrip): (v: Verdict)
    ensures rt.Failed? ==> v == Rejected(rt.err)
    ensures rt.Received? && rt.reply.status == 200 ==> v == Passed(rt.reply)
    ensures rt.Received? && rt.reply.status != 200 ==> v == Rejected(UnexpectedCode(rt.reply.status, rt.reply.body))
  {
    match rt
    case Failed(err, _) => Rejected(err)
    case Received(reply) =>
      if reply.status == 200 then Passed(reply) else Rejected(UnexpectedCode(reply.status, reply.body))
  }

  /** Only a 200 reply passes, and it passes unchanged. */
  lemma PassedIffStatus200(rt: RoundTrip)
    ensures Classify(rt).Passed? <==> rt.Received? && rt.reply.status == 200
    ensures Classify(rt).Passed? ==> Classify(rt).reply == rt.reply
  {
  }

  /** The position of the first c in s. */
  function IndexOf(s: string, c: char): (k: nat)
    requires c in s
    ensures k < |s| && s[k] == c && c !in s[..k]
    decreases |s|
  {
    if s[0] == c then 0 else IndexOf(s[1..], c) + 1
  }

  lemma {:induction false} IndexOfCut(x: string, y: string, c: char)
    requires c !in x
    ensures c in x + [c] + y && IndexOf(x + [c] + y, c) == |x|
    decreases |x|
  {
    var s := x + [c] + y;
    assert s[|x|] == c;
    if |x| > 0 {
      assert s[1..] == x[1..] + [c] + y;
      assert c !in x[1..] by {
        forall i | 0 <= i < |x[1..]| ensures x[1..][i] != c { assert x[1..][i] == x[i + 1]; }
      }
      IndexOfCut(x[1..], y, c);
    }
  }

  /** Two strings cut at the first c (which neither prefix holds) agree on both sides. */
  lemma CutAtFirst(x: string, y: string, x': string, y': string, c: char)
    requires c !in x && c !in x'
    requires x + [c] + y == x' + [c] + y'
    ensures x == x' && y == y'
  {
    var s := x + [c] + y;
    IndexOfCut(x, y, c);
    IndexOfCut(x', y', c);
    assert x == s[..|x|] && x' == s[..|x'|];
    assert y == s[|x| + 1..] && y' == s[|x'| + 1..];
  }

  lemma DropPrefix(p: string, t1: string, t2: string)
    requires p + t1 == p + t2
    ensures t1 == t2
  {
    assert t1 == (p + t1)[|p|..];
    assert t2 == (p + t2)[|p|..];
  }

  lemma UnParen(b1: string, b2: string)
    requires "(" + b1 + ")" == "(" + b2 + ")"
    ensures b1 == b2
  {
    assert b1 == ("(" + b1 + ")")[1..|b1| + 1];
    assert b2 == ("(" + b2 + ")")[1..|b2| + 1];
  }

  lemma CodeShape(status: int, body: string)
    ensures UnexpectedCode(status, body) == CodePrefix + (IntToString(status) + [' '] + ("(" + body + ")"))
  {
    var i := IntToString(status);
    assert " (" + body + ")" == [' '] + ("(" + body + ")");
  }

  /**
   * The error text of a rejected reply determines its status and its body:
   * nothing of either is lost in the message.
   */
  lemma UnexpectedCodeInjective(s1: int, b1: string, s2: int, b2: string)
    requires UnexpectedCode(s1, b1) == UnexpectedCode(s2, b2)
    ensures s1 == s2 && b1 == b2
  {
    CodeShape(s1, b1);
    CodeShape(s2, b2);
    DropPrefix(CodePrefix, IntToString(s1) + [' '] + ("(" + b1 + ")"), IntToString(s2) + [' '] + ("(" + b2 + ")"));
    CutAtFirst(IntToString(s1), "(" + b1 + ")", IntToString(s2), "(" + b2 + ")", ' ');
    IntToStringInjective(s1, s2);
    UnParen(b1, b2);
  }
}
