/** Values shared by every screen: optional values, the outcome of an HTTP call,
    and the observable effects a handler produces (requests, alerts, navigations). */
module Common {

  datatype Option<+T> = None | Some(value: T)

  /** The outcome of one awaited axios call: the response data on a 2xx status,
      otherwise a failure carrying `error.response.data` when the server sent one. */
  datatype Response<+T> = Ok(data: T) | Failed(errorData: Option<string>)

  datatype Verb = Get | Post | Put | Delete

  /** One HTTP request; `path` is relative to the configured backend base URL and
      `payload` is the JSON body (or the query parameters of a GET). */
  datatype Request<+B> = Request(verb: Verb, path: string, payload: Option<B>)

  /** What a handler makes visible outside the component. */
  datatype Effect<+B> = Send(request: Request<B>) | Alert(text: string) | Navigate(to: string)

  /** The new component state together with the effects produced on the way to it, in order. */
  datatype Step<+S, +B> = Step(state: S, effects: seq<Effect<B>>)

  /** The requests among `effects`, in the order they were issued. */
  function Requests<B>(effects: seq<Effect<B>>): (r: seq<Request<B>>)
    ensures |r| <= |effects|
    ensures forall i :: 0 <= i < |r| ==> Send(r[i]) in effects
    ensures forall i :: 0 <= i < |effects| && effects[i].Send? ==> effects[i].request in r
  {
    if effects == [] then []
    else (if effects[0].Send? then [effects[0].request] else []) + Requests(effects[1..])
  }

  /** A request put in front of other effects is the first request among them. */
  lemma RequestsOfSend<B>(r: Request<B>, rest: seq<Effect<B>>)
    ensures Requests([Send(r)] + rest) == [r] + Requests(rest)
  {
    assert ([Send(r)] + rest)[0] == Send(r);
    assert ([Send(r)] + rest)[1..] == rest;
  }

  /** Effects that end with an alert after nothing but requests show no other alert and
      navigate nowhere. */
  lemma AlertAfterSends<B>(sends: seq<Effect<B>>, text: string, other: string, to: string)
    requires forall i :: 0 <= i < |sends| ==> sends[i].Send?
    requires text != other
    ensures var effects := sends + [Alert(text)];
      && effects[|effects| - 1] == Alert(text)
      && Alert(other) !in effects && Navigate(to) !in effects
  {
    var effects := sends + [Alert(text)];
    assert forall i :: 0 <= i < |sends| ==> effects[i] == sends[i];
  }

  lemma {:induction false} RequestsOfConcat<B>(a: seq<Effect<B>>, b: seq<Effect<B>>)
    ensures Requests(a + b) == Requests(a) + Requests(b)
  {
    if a == [] {
      assert a + b == b;
    } else {
      var head := if a[0].Send? then [a[0].request] else [];
      assert (a + b)[0] == a[0];
      assert (a + b)[1..] == a[1..] + b;
      RequestsOfConcat(a[1..], b);
      calc {
        Requests(a + b);
        head + Requests(a[1..] + b);
        head + (Requests(a[1..]) + Requests(b));
        (head + Requests(a[1..])) + Requests(b);
        Requests(a) + Requests(b);
      }
    }
  }
}
