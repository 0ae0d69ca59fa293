// The panel's webhook path: the Next.js route that receives signed order
// events, the single-slot store it writes, and the polling hook that notices
// a new event and revalidates the order lists.

/** `lib/panelEventsStore.ts`: one module-level slot holding the last event. */
module PanelEventsStore {
  import opened Common

  datatype PanelEvent = PanelEvent(event: Json, data: Json, receivedAt: string)

  class EventStore {
    var lastEvent: Option<PanelEvent>

    /** The slot starts empty (`null`). */
    constructor ()
      ensures lastEvent == None
    {
      lastEvent := None;
    }

    /** `getLastEvent`: a read of the slot; being a function it cannot change it. */
    function GetLastEvent(): Option<PanelEvent>
      reads this
    {
      lastEvent
    }

    /** `setLastEvent`: the new event replaces whatever was held, so only one is ever kept. */
    method SetLastEvent(e: PanelEvent)
      modifies this
      ensures GetLastEvent() == Some(e)
    {
      lastEvent := Some(e);
    }
  }
}

/** `pages/api/webhooks/orders.ts`: the signed webhook that records the last order event. */
module WebhookOrders {
  import opened Common
  import opened PanelEventsStore

  /** What the handler reads from the request: its method, raw body and `x-pastita-signature` header. */
  datatype Request = Request(httpMethod: string, rawBody: string, signature: Option<string>)

  /** Status code and the body's `error` text (`"ok"` for the success body). */
  datatype Response = Response(status: int, body: string)

  predicate IsHexDigit(c: char)
  {
    '0' <= c <= '9' || 'a' <= c <= 'f'
  }

  /** `signatureHeader.replace("v1=", "")`: the first `v1=` anywhere in the header is dropped. */
  function Provided(header: string): string
  {
    ReplaceFirst(header, "v1=", "")
  }

  /**
   * `verifySignature`. `hmacHex(secret, body)` is the hex HMAC-SHA256 digest,
   * kept abstract; `timingSafeEqual` throws on a length mismatch, which the
   * source turns into `false`, and otherwise compares the contents.
   */
  predicate VerifySignature(rawBody: string, header: Option<string>, secret: string, hmacHex: (string, string) -> string)
  {
    if header.None? || header.value == "" || secret == "" then false
    else
      var expected := hmacHex(secret, rawBody);
      var provided := Provided(header.value);
      |expected| == |provided| && expected == provided
  }

  /** A missing or empty header, or an empty secret, never verifies. */
  lemma VerifyNeedsHeaderAndSecret(rawBody: string, header: Option<string>, secret: string, hmacHex: (string, string) -> string)
    requires header.None? || header == Some("") || secret == ""
    ensures !VerifySignature(rawBody, header, secret, hmacHex)
  {
  }

  /** A header whose length after stripping differs from the digest's is rejected. */
  lemma VerifyLengthMismatch(rawBody: string, header: string, secret: string, hmacHex: (string, string) -> string)
    requires |Provided(header)| != |hmacHex(secret, rawBody)|
    ensures !VerifySignature(rawBody, Some(header), secret, hmacHex)
  {
  }

  /** The sender's `v1=<digest>` form verifies for any non-empty secret. */
  lemma VerifyAcceptsPrefixed(rawBody: string, secret: string, hmacHex: (string, string) -> string)
    requires secret != ""
    ensures VerifySignature(rawBody, Some("v1=" + hmacHex(secret, rawBody)), secret, hmacHex)
  {
    var d := hmacHex(secret, rawBody);
    assert StartsWith("v1=" + d, "v1=");
    assert ("v1=" + d)[3..] == d;
  }

  /** A bare hex digest verifies too: it holds no `v1=` for the replacement to remove. */
  lemma VerifyAcceptsBareDigest(rawBody: string, secret: string, hmacHex: (string, string) -> string)
    requires secret != "" && hmacHex(secret, rawBody) != ""
    requires forall i :: 0 <= i < |hmacHex(secret, rawBody)| ==> IsHexDigit(hmacHex(secret, rawBody)[i])
    ensures VerifySignature(rawBody, Some(hmacHex(secret, rawBody)), secret, hmacHex)
  {
    var d := hmacHex(secret, rawBody);
    HexHoldsNoMarker(d);
    ReplaceFirstAbsent(d, "v1=", "");
  }

  lemma {:induction false} HexHoldsNoMarker(d: string)
    requires forall i :: 0 <= i < |d| ==> IsHexDigit(d[i])
    ensures !Includes(d, "v1=")
    decreases |d|
  {
    if d != [] {
      assert d[0] != 'v';
      HexHoldsNoMarker(d[1..]);
    }
  }

  /** Any other header verifies only if, after stripping, it is exactly the digest. */
  lemma VerifyMeansDigest(rawBody: string, header: string, secret: string, hmacHex: (string, string) -> string)
    requires VerifySignature(rawBody, Some(header), secret, hmacHex)
    ensures secret != "" && Provided(header) == hmacHex(secret, rawBody)
  {
  }

  /** `payload.data || {}`. */
  function DataOrEmpty(payload: Json): (r: Json)
    ensures Truthy(Field(payload, "data")) ==> r == Field(payload, "data").value
    ensures !Truthy(Field(payload, "data")) ==> r == JObj(map[])
  {
    var d := Field(payload, "data");
    if Truthy(d) then d.value else JObj(map[])
  }

  /**
   * `handler`. The secret is `PASTITA_WEBHOOK_SECRET` or `""`; `parse` is
   * `JSON.parse` (`None` when it throws) and `now` the ISO timestamp of the
   * arrival. The checks run in order (method, signature, JSON, event) and the
   * store is written only when all of them pass.
   */
  method Handler(store: EventStore, req: Request, secretEnv: Option<string>, hmacHex: (string, string) -> string,
                 parse: string -> Option<Json>, now: string) returns (res: Response)
    modifies store
    ensures var secret := if secretEnv.Some? then secretEnv.value else "";
      && (req.httpMethod != "POST" ==> res == Response(405, "Method not allowed"))
      && (req.httpMethod == "POST" && !VerifySignature(req.rawBody, req.signature, secret, hmacHex) ==>
            res == Response(401, "Invalid signature"))
      && (req.httpMethod == "POST" && VerifySignature(req.rawBody, req.signature, secret, hmacHex) ==>
            && (parse(req.rawBody).None? ==> res == Response(400, "Invalid JSON"))
            && (parse(req.rawBody).Some? && !Truthy(Field(parse(req.rawBody).value, "event")) ==>
                  res == Response(400, "Missing event"))
            && (parse(req.rawBody).Some? && Truthy(Field(parse(req.rawBody).value, "event")) ==>
                  var payload := parse(req.rawBody).value;
                  && res == Response(200, "ok")
                  && store.lastEvent == Some(PanelEvent(Field(payload, "event").value, DataOrEmpty(payload), now))))
    ensures res.status != 200 ==> store.lastEvent == old(store.lastEvent)
    ensures res.status in {200, 400, 401, 405}
  {
    if req.httpMethod != "POST" {
      return Response(405, "Method not allowed");
    }
    var secret := if secretEnv.Some? then secretEnv.value else "";
    if !VerifySignature(req.rawBody, req.signature, secret, hmacHex) {
      return Response(401, "Invalid signature");
    }
    var payload := parse(req.rawBody);
    if payload.None? {
      return Response(400, "Invalid JSON");
    }
    var event := Field(payload.value, "event");
    if !Truthy(event) {
      return Response(400, "Missing event");
    }
    store.SetLastEvent(PanelEvent(event.value, DataOrEmpty(payload.value), now));
    res := Response(200, "ok");
  }
}

/** `hooks/usePanelWebhookPoll.ts`: the effect that reacts to a newly polled event. */
module PanelWebhookPoll {
  import opened Common

  /** The polled `/api/events/last` body: an optional event name and arrival stamp. */
  datatype Polled = Polled(event: Option<string>, receivedAt: Option<string>)

  /** The stamp the effect acts on: a non-empty `received_at` different from the last one seen. */
  function NewStamp(data: Option<Polled>, last: Option<string>): (r: Option<string>)
    ensures r.Some? ==> r.value != "" && Some(r.value) != last
    ensures r.Some? ==> data.Some? && data.value.receivedAt == r
    ensures r.None? ==> data.None? || data.value.receivedAt.None? || data.value.receivedAt == Some("") ||
                        data.value.receivedAt == last
  {
    if data.None? then None
    else
      var at := data.value.receivedAt;
      if at.None? || at.value == "" || at == last then None else at
  }

  /** The last stamp after the effect ran. */
  function After(data: Option<Polled>, last: Option<string>): Option<string>
  {
    if NewStamp(data, last).Some? then NewStamp(data, last) else last
  }

  /** `onEvent` is called for a new stamp whose event is truthy. */
  predicate Notifies(data: Option<Polled>, last: Option<string>)
  {
    NewStamp(data, last).Some? && data.value.event.Some? && data.value.event.value != ""
  }

  /** The keys revalidated on a new stamp: every order list and the summary. */
  predicate Revalidated(key: string)
  {
    StartsWith(key, "/admin/orders/") || key == "/admin/summary/"
  }

  /** Delivering the same data again right after changes nothing and calls nobody. */
  lemma SameStampOnce(data: Option<Polled>, last: Option<string>)
    ensures NewStamp(data, After(data, last)).None?
    ensures After(data, After(data, last)) == After(data, last)
    ensures !(Notifies(data, last) && Notifies(data, After(data, last)))
  {
  }

  /** A stamp is recorded even when the event is empty, so a later copy of it never notifies. */
  lemma StampRecordedWithoutEvent(at: string, last: Option<string>)
    requires at != "" && Some(at) != last
    ensures var data := Some(Polled(None, Some(at)));
      && !Notifies(data, last)
      && After(data, last) == Some(at)
      && !Notifies(Some(Polled(Some("order.created"), Some(at))), After(data, last))
  {
  }

  class Poller {
    /** `lastRef.current`. */
    var lastSeen: Option<string>

    constructor ()
      ensures lastSeen == None
    {
      lastSeen := None;
    }

    /**
     * The effect for freshly polled `data`: revalidate and record the stamp
     * when it is new, and hand the data to `onEvent` when its event is truthy.
     */
    method OnData(data: Option<Polled>) returns (revalidate: bool, notify: bool)
      modifies this
      ensures revalidate <==> NewStamp(data, old(lastSeen)).Some?
      ensures notify <==> Notifies(data, old(lastSeen))
      ensures lastSeen == After(data, old(lastSeen))
    {
      revalidate, notify := false, false;
      if data.None? {
        return;
      }
      var receivedAt := data.value.receivedAt;
      if receivedAt.None? || receivedAt.value == "" || receivedAt == lastSeen {
        return;
      }
      lastSeen := receivedAt;
      revalidate := true;
      if data.value.event.Some? && data.value.event.value != "" {
        notify := true;
      }
    }
  }
}
