/** The fan-out dispatcher of alerting/__init__.py: `Alerting` checks its
    client list once, at construction, and `send_alert` forwards a message to
    every client in list order, letting the first exception end the loop. */
module Alerting {
  import opened Objects

  const NullClients := "Null clients passed for alerting"
  const ClientsNotList := "Clients must be a list of \"AlertingClient\"s instead of "
  const NotAClient := "Client must be a AlertingClient object instead of "
  const NullMessage := "Null message passed for sending alert"

  /** The assertion message for a `message` argument that is not a str. */
  function BadMessage(message: Value): string {
    "Invalid message type, found " + TypeRepr(message) + " instead of str"
  }

  /** One call `client.send_alert(message)` made by the dispatcher. */
  datatype Call = Call(client: Client, message: string)

  /** The calls a dispatch made, in order, and how it ended. */
  datatype Dispatch = Dispatch(calls: seq<Call>, outcome: Outcome)

  /** How `client.send_alert(message)` ends when called, as the dispatcher
      calls it, with the message as its only argument. The base class always
      raises NotImplementedError; the four channel adapters declare
      `send_alert(self, title, message)`, so Python rejects the call before
      their bodies run; only a user-defined subclass can return normally. */
  function SendOutcome(c: Client): (o: Outcome)
    ensures o.Returns? ==> c.kind.Custom?
    ensures c.kind.Base? ==> o == Raises(NotImplementedError)
    ensures !c.kind.Base? && !c.kind.Custom? ==> o == Raises(MissingArgument("message"))
  {
    match c.kind
    case Base => Raises(NotImplementedError)
    case Custom(_, outcome) => outcome
    case _ => Raises(MissingArgument("message"))
  }

  /** The index of the first item that is not an AlertingClient, or `|items|`. */
  function FirstNonClient(items: seq<Value>): (k: nat)
    ensures k <= |items|
    ensures forall i :: 0 <= i < k ==> items[i].ClientObj?
    ensures k < |items| ==> !items[k].ClientObj?
  {
    if items == [] || !items[0].ClientObj? then 0 else 1 + FirstNonClient(items[1..])
  }

  /** The assertion `Alerting(clients)` fails with, if any: None is refused
      first, then anything but a list, then the first element that is not an
      AlertingClient. */
  function ClientsError(clients: Value): (e: Option<Error>)
    ensures e.None? <==> clients.List? && forall i :: 0 <= i < |clients.items| ==> clients.items[i].ClientObj?
    ensures clients.PyNone? ==> e == Some(AssertionError(NullClients))
    ensures !clients.PyNone? && !clients.List? ==> e == Some(AssertionError(ClientsNotList + TypeRepr(clients)))
    ensures clients.List? && e.Some? ==>
              var k := FirstNonClient(clients.items);
              k < |clients.items| && e == Some(AssertionError(NotAClient + TypeRepr(clients.items[k])))
  {
    if clients.PyNone? then Some(AssertionError(NullClients))
    else if !clients.List? then Some(AssertionError(ClientsNotList + TypeRepr(clients)))
    else
      var k := FirstNonClient(clients.items);
      if k < |clients.items| then Some(AssertionError(NotAClient + TypeRepr(clients.items[k]))) else None
  }

  /** The index of the first client whose send raises, or `|clients|`. */
  function FirstFailure(clients: seq<Client>): (k: nat)
    ensures k <= |clients|
    ensures forall i :: 0 <= i < k ==> SendOutcome(clients[i]).Returns?
    ensures k < |clients| ==> SendOutcome(clients[k]).Raises?
  {
    if clients == [] || SendOutcome(clients[0]).Raises? then 0 else 1 + FirstFailure(clients[1..])
  }

  /** The loop `for client in clients: client.send_alert(message)`, with
      nothing caught: each call is recorded, and the first exception ends
      the loop and propagates. */
  function Fanout(clients: seq<Client>, message: string): (d: Dispatch)
    ensures |d.calls| <= |clients|
    ensures forall i :: 0 <= i < |d.calls| ==> d.calls[i] == Call(clients[i], message)
    ensures d.outcome.Raises? ==> d.calls != [] && SendOutcome(clients[|d.calls| - 1]) == d.outcome
    ensures d.outcome.Returns? ==> |d.calls| == |clients|
  {
    if clients == [] then Dispatch([], Returns)
    else
      var first := Call(clients[0], message);
      match SendOutcome(clients[0])
      case Raises(e) => Dispatch([first], Raises(e))
      case Returns =>
        var rest := Fanout(clients[1..], message);
        Dispatch([first] + rest.calls, rest.outcome)
  }

  /** The trace of a fan-out: clients are called once each, in list order,
      with the message unchanged, up to and including the first one that
      raises; its exception is the outcome, and no later client is called.
      When none raises, every client is called and the dispatch returns. */
  lemma {:induction false} FanoutStopsAtFirstFailure(clients: seq<Client>, message: string)
    ensures var d := Fanout(clients, message);
            var k := FirstFailure(clients);
            var n := if k < |clients| then k + 1 else |clients|;
            |d.calls| == n &&
            (forall i :: 0 <= i < n ==> d.calls[i] == Call(clients[i], message)) &&
            d.outcome == (if k < |clients| then SendOutcome(clients[k]) else Returns)
  {
    if clients != [] && SendOutcome(clients[0]).Returns? {
      FanoutStopsAtFirstFailure(clients[1..], message);
      var d := Fanout(clients, message);
      var rest := Fanout(clients[1..], message);
      assert d.calls == [Call(clients[0], message)] + rest.calls;
      forall i | 1 <= i < |d.calls|
        ensures d.calls[i] == Call(clients[i], message)
      {
        assert d.calls[i] == rest.calls[i - 1];
      }
    }
  }

  /** As the code is written, a dispatch that calls any of the library's own
      clients cannot end normally: a normal return needs every client to be
      a user-defined subclass with a one-argument send_alert. */
  lemma {:induction false} OnlyCustomClientsReturn(clients: seq<Client>, message: string)
    requires Fanout(clients, message).outcome.Returns?
    ensures forall i :: 0 <= i < |clients| ==> clients[i].kind.Custom?
    ensures |Fanout(clients, message).calls| == |clients|
  {
    FanoutStopsAtFirstFailure(clients, message);
  }

  /** The dispatcher of alerting/__init__.py. */
  class Alerting {
    var clients: seq<Client>

    constructor (clients: seq<Client>)
      ensures this.clients == clients
    {
      this.clients := clients;
    }

    /** `Alerting(clients)`: every element is checked before anything is
        stored; on success the object holds exactly the given clients, in
        the given order. A failed check raises, and no object is made. */
    static method Create(clients: Value) returns (r: Result<Alerting>)
      ensures r.Failure? <==> ClientsError(clients).Some?
      ensures r.Failure? ==> ClientsError(clients) == Some(r.error)
      ensures r.Success? ==> fresh(r.value) && clients.List? &&
                             |r.value.clients| == |clients.items| &&
                             forall i :: 0 <= i < |clients.items| ==> clients.items[i] == ClientObj(r.value.clients[i])
    {
      if clients.PyNone? {
        return Failure(AssertionError(NullClients));
      }
      if !clients.List? {
        return Failure(AssertionError(ClientsNotList + TypeRepr(clients)));
      }
      var items := clients.items;
      var checked: seq<Client> := [];
      for i := 0 to |items|
        invariant |checked| == i
        invariant forall j :: 0 <= j < i ==> items[j] == ClientObj(checked[j])
      {
        if !items[i].ClientObj? {
          assert FirstNonClient(items) == i;
          return Failure(AssertionError(NotAClient + TypeRepr(items[i])));
        }
        checked := checked + [items[i].client];
      }
      var a := new Alerting(checked);
      return Success(a);
    }

    /** `send_alert(message)`: a message that is None or not a str is refused
        before any client is called; otherwise the clients are called in
        order, as `Fanout` describes. The client list is only read. */
    method SendAlert(message: Value) returns (calls: seq<Call>, r: Outcome)
      ensures message.PyNone? ==> calls == [] && r == Raises(AssertionError(NullMessage))
      ensures !message.PyNone? && !message.Str? ==> calls == [] && r == Raises(AssertionError(BadMessage(message)))
      ensures message.Str? ==> Dispatch(calls, r) == Fanout(clients, message.s)
    {
      calls := [];
      if message.PyNone? {
        return calls, Raises(AssertionError(NullMessage));
      }
      if !message.Str? {
        return calls, Raises(AssertionError(BadMessage(message)));
      }
      var m := message.s;
      var i := 0;
      while i < |clients|
        invariant 0 <= i <= |clients|
        invariant Fanout(clients, m) ==
                  Dispatch(calls + Fanout(clients[i..], m).calls, Fanout(clients[i..], m).outcome)
      {
        assert clients[i..][1..] == clients[i + 1..];
        calls := calls + [Call(clients[i], m)];
        var o := SendOutcome(clients[i]);
        if o.Raises? {
          return calls, o;
        }
        i := i + 1;
      }
      r := Returns;
    }
  }
}
