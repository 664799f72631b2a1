/** The cross-window messaging of src/app/services/utils.ts: the filter
    `handleReceive` applies to incoming messages, the reply target it latches
    from the first delivered message, the `uid` stamp and the choice of target
    in `sendMessage`, and `isDefined`. */
module Messages {
  import opened Harness

  /** A JavaScript value that may be `undefined` or `null`. */
  datatype Nullable<T> = Undefined | Null | Defined(value: T)

  /** `isDefined(v)`: neither `undefined` nor `null`. */
  function IsDefined<T>(v: Nullable<T>): (r: bool)
    ensures r <==> !v.Undefined? && !v.Null?
  {
    v.Defined?
  }

  /** A value held under a key of a message object. */
  datatype Datum = Text(s: string) | OtherDatum(tag: string)

  type Record = map<string, Datum>

  /** `e.data`: a plain object, an array, `null`, or any other value. */
  datatype MessageData = ObjectData(fields: Record) | ArrayData | NullData | PrimitiveData

  /** A window, by identity. */
  type WindowId = nat

  /** A `message` event; `source` is `None` when it is `null`. */
  datatype MessageEvent = MessageEvent(origin: string, source: Option<WindowId>, data: MessageData)

  /** The iframe behind the ref: its content window, which may be `null`, and
      its `src`. */
  datatype IFrame = IFrame(contentWindow: Option<WindowId>, src: string)

  /** One `postMessage` call: the window it went to, the data (`None` for
      `undefined`), and the target origin when one was given. */
  datatype Post = Post(target: WindowId, data: Option<Record>, targetOrigin: Option<string>)

  /** The message comes from another origin and carries a plain object whose
      `uid` is this conversation's. */
  predicate Delivered(uid: string, ownOrigin: string, e: MessageEvent) {
    e.origin != ownOrigin && e.data.ObjectData? && "uid" in e.data.fields && e.data.fields["uid"] == Text(uid)
  }

  /** Of the delivered messages, only those with a `type` are taken in. */
  predicate TakenIn(uid: string, ownOrigin: string, e: MessageEvent) {
    Delivered(uid, ownOrigin, e) && "type" in e.data.fields
  }

  /** Messages from the page's own origin are never taken in. */
  lemma OwnOriginIgnored(uid: string, ownOrigin: string, e: MessageEvent)
    requires e.origin == ownOrigin
    ensures !TakenIn(uid, ownOrigin, e)
  {
  }

  /** Arrays, `null` and other non-objects are never taken in, nor is an
      object whose `uid` is missing or belongs to another conversation. */
  lemma ForeignDataIgnored(uid: string, ownOrigin: string, e: MessageEvent)
    requires !e.data.ObjectData? || "uid" !in e.data.fields || e.data.fields["uid"] != Text(uid)
    ensures !TakenIn(uid, ownOrigin, e)
  {
  }

  /** The source a latch records from an event: the window, or `null`. */
  function SourceOf(e: MessageEvent): (s: Nullable<WindowId>)
    ensures IsDefined(s) <==> e.source.Some?
  {
    match e.source
    case Some(w) => Defined(w)
    case None => Null
  }

  /** The state of one `useIFrameMessages` conversation. */
  class Channel {
    const uid: string
    const ownOrigin: string
    /** `iFrameRef.current`, when there is one. */
    const iframe: Option<IFrame>
    const replyCallback: Option<Record -> Option<Record>>
    var receivedData: Option<Record>
    var targetSource: Nullable<WindowId>
    var targetOrigin: Option<string>
    /** Every `postMessage` this conversation made, in order. */
    var posted: seq<Post>

    /** Source and origin are latched together. */
    ghost predicate Valid()
      reads this
    {
      targetSource.Undefined? <==> targetOrigin.None?
    }

    constructor(uid: string, ownOrigin: string, iframe: Option<IFrame>, replyCallback: Option<Record -> Option<Record>>)
      ensures Valid()
      ensures this.uid == uid && this.ownOrigin == ownOrigin && this.iframe == iframe
      ensures this.replyCallback == replyCallback
      ensures receivedData.None? && targetSource.Undefined? && targetOrigin.None? && posted == []
    {
      this.uid := uid;
      this.ownOrigin := ownOrigin;
      this.iframe := iframe;
      this.replyCallback := replyCallback;
      receivedData := None;
      targetSource := Undefined;
      targetOrigin := None;
      posted := [];
    }

    /** The reply `replyCallback` makes to a taken-in message, when there is a
        callback and a source to answer. */
    function Reply(e: MessageEvent): (ps: seq<Post>)
      requires e.data.ObjectData?
      ensures |ps| <= 1
      ensures |ps| == 1 <==> replyCallback.Some? && e.source.Some?
    {
      if replyCallback.Some? && e.source.Some? then
        [Post(e.source.value, replyCallback.value(e.data.fields), None)]
      else []
    }

    /** `handleReceive`. A message not taken in changes nothing. A taken-in
        message becomes `receivedData`, latches source and origin unless a
        source window is already latched, and is answered when a reply
        callback exists. */
    method HandleReceive(e: MessageEvent)
      requires Valid()
      modifies this`receivedData, this`targetSource, this`targetOrigin, this`posted
      ensures Valid()
      ensures !TakenIn(uid, ownOrigin, e) ==>
        receivedData == old(receivedData) && targetSource == old(targetSource)
        && targetOrigin == old(targetOrigin) && posted == old(posted)
      ensures TakenIn(uid, ownOrigin, e) ==>
        receivedData == Some(e.data.fields) && posted == old(posted) + Reply(e)
      ensures TakenIn(uid, ownOrigin, e) && IsDefined(old(targetSource)) ==>
        targetSource == old(targetSource) && targetOrigin == old(targetOrigin)
      ensures TakenIn(uid, ownOrigin, e) && !IsDefined(old(targetSource)) ==>
        targetSource == SourceOf(e) && targetOrigin == Some(e.origin)
    {
      if e.origin == ownOrigin {
        return;
      }
      if !Delivered(uid, ownOrigin, e) {
        return;
      }
      if "type" in e.data.fields {
        if !IsDefined(targetSource) {
          targetSource := SourceOf(e);
          targetOrigin := Some(e.origin);
        }
        receivedData := Some(e.data.fields);
        posted := posted + Reply(e);
      }
    }

    /** `sendMessage`: the caller's object gets this conversation's `uid`,
        then goes to the iframe when there is one, else to the latched target,
        else nowhere. A target latched from a `null` source makes the call
        throw (`threw`). */
    method SendMessage(obj: Outgoing) returns (threw: bool)
      requires Valid()
      modifies obj, this`posted
      ensures obj.fields == old(obj.fields)["uid" := Text(uid)]
      ensures iframe.Some? ==>
        !threw && posted == old(posted) + (if iframe.value.contentWindow.Some?
          then [Post(iframe.value.contentWindow.value, Some(obj.fields), Some(iframe.value.src))] else [])
      ensures iframe.None? && targetSource.Defined? ==>
        !threw && posted == old(posted) + [Post(targetSource.value, Some(obj.fields), targetOrigin)]
      ensures iframe.None? && targetSource.Null? ==> threw && posted == old(posted)
      ensures iframe.None? && targetSource.Undefined? ==> !threw && posted == old(posted)
    {
      obj.fields := obj.fields["uid" := Text(uid)];
      threw := false;
      if iframe.Some? {
        if iframe.value.contentWindow.Some? {
          posted := posted + [Post(iframe.value.contentWindow.value, Some(obj.fields), Some(iframe.value.src))];
        }
      } else if !targetSource.Undefined? && targetOrigin.Some? {
        if targetSource.Null? {
          threw := true;
        } else {
          posted := posted + [Post(targetSource.value, Some(obj.fields), targetOrigin)];
        }
      }
    }
  }

  /** An object the caller hands to `sendMessage`, which writes into it. */
  class Outgoing {
    var fields: Record

    constructor(fields: Record)
      ensures this.fields == fields
    {
      this.fields := fields;
    }
  }

  /** Once a window is latched, no later message replaces it: the reply
      target of a conversation is the source of the first taken-in message
      that had one. */
  method LatchIsPermanent(c: Channel, e1: MessageEvent, e2: MessageEvent)
    requires c.Valid() && c.targetSource.Undefined?
    requires TakenIn(c.uid, c.ownOrigin, e1) && e1.source.Some?
    modifies c
    ensures c.targetSource == Defined(e1.source.value) && c.targetOrigin == Some(e1.origin)
  {
    c.HandleReceive(e1);
    c.HandleReceive(e2);
  }
}
