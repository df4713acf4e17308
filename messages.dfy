/** Admission of a message: dereferencing, validation, the custom-type check and the
    per-kind defaults that `Enqueue` fills in before handing the message to the loop. */
module Messages {
  import opened Wrappers
  import opened Errors

  const Version: string := "4.2.1"
  const LibraryName: string := "analytics-go"

  datatype LibraryInfo = LibraryInfo(name: string, version: string)

  /** The message context. Messages hold it by reference, so the caller's object is the one
      `MakeContext` updates. Only the library field is touched by the client. */
  class Context {
    var library: LibraryInfo

    constructor ()
      ensures library == LibraryInfo("", "")
    {
      library := LibraryInfo("", "");
    }
  }

  datatype Kind = Alias | Group | Identify | Page | Screen | Track

  /** A message of one of the six known kinds. Time 0 is Go's zero time; `details` stands for
      the kind-specific fields (event name, properties, traits, ...) that admission leaves alone. */
  datatype Event = Event(
    kind: Kind,
    typ: string,
    messageId: string,
    userId: string,
    anonymousId: string,
    originalTimestamp: nat,
    sentAt: nat,
    context: Context?,
    channel: string,
    details: string)

  /** What a caller may pass to `Enqueue`: a value of a known kind, a pointer to one (possibly
      nil), or a value of some other type implementing the message interface, together with
      the outcome of that type's own `Validate`. */
  datatype Message =
    | Value(event: Event)
    | Pointer(target: Option<Event>)
    | Custom(typeName: string, validation: Option<Error>)

  /** The identifiers and the clock reading a client draws for one admission. */
  datatype Fresh = Fresh(messageId: string, anonymousId: string, now: nat)

  datatype Admission = Admitted(event: Event) | Rejected(error: Error) | NilPanic

  function KindName(k: Kind): string {
    match k
    case Alias => "alias"
    case Group => "group"
    case Identify => "identify"
    case Page => "page"
    case Screen => "screen"
    case Track => "track"
  }

  /** The kinds whose anonymous id is defaulted: all but alias and identify. */
  predicate DefaultsAnonymousId(k: Kind) {
    k == Group || k == Page || k == Screen || k == Track
  }

  /** dereferenceMessage: a pointer to a known kind becomes its value, a nil pointer becomes
      the nil message, anything else is returned as it is. */
  function Dereference(msg: Message): (r: Option<Message>)
    ensures r.None? <==> msg == Pointer(None)
    ensures r.Some? ==> !r.value.Pointer?
    ensures msg.Pointer? && msg.target.Some? ==> r == Some(Value(msg.target.value))
    ensures !msg.Pointer? ==> r == Some(msg)
  {
    match msg
    case Pointer(None) => None
    case Pointer(Some(e)) => Some(Value(e))
    case _ => Some(msg)
  }

  /** The message a caller's value stands for: the value itself or what the pointer points to. */
  function Target(msg: Message): Option<Event> {
    match msg
    case Value(e) => Some(e)
    case Pointer(t) => t
    case Custom(_, _) => None
  }

  /** makeAnonymousId: keep a given id, draw a new one only for the empty id. */
  function MakeAnonymousId(anonymousId: string, generated: string): (r: string)
    ensures anonymousId != "" ==> r == anonymousId
    ensures anonymousId == "" ==> r == generated
  {
    if anonymousId == "" then generated else anonymousId
  }

  /** makeMessageId (defined outside this model): keep a given id, otherwise use the drawn one. */
  function MakeMessageId(messageId: string, generated: string): (r: string)
    ensures messageId != "" ==> r == messageId
    ensures messageId == "" ==> r == generated
  {
    if messageId == "" then generated else messageId
  }

  /** makeTimestamp (defined outside this model): keep a set time, otherwise use the clock. */
  function MakeTimestamp(t: nat, now: nat): (r: nat)
    ensures t != 0 ==> r == t
    ensures t == 0 ==> r == now
  {
    if t == 0 then now else t
  }

  /** The defaults Enqueue fills in for a validated message of a known kind. */
  function Normalize(e: Event, drawn: Fresh): (r: Event)
    ensures r.kind == e.kind && r.userId == e.userId && r.details == e.details
    ensures r.context == e.context
    ensures r.typ == KindName(e.kind)
    ensures r.messageId == MakeMessageId(e.messageId, drawn.messageId)
    ensures r.originalTimestamp == MakeTimestamp(e.originalTimestamp, drawn.now)
    ensures r.sentAt == r.originalTimestamp
    ensures r.channel == "server"
    ensures !DefaultsAnonymousId(e.kind) ==> r.anonymousId == e.anonymousId
    ensures DefaultsAnonymousId(e.kind) ==> r.anonymousId == MakeAnonymousId(e.anonymousId, drawn.anonymousId)
  {
    var originalTimestamp := MakeTimestamp(e.originalTimestamp, drawn.now);
    e.(typ := KindName(e.kind),
       messageId := MakeMessageId(e.messageId, drawn.messageId),
       originalTimestamp := originalTimestamp,
       sentAt := originalTimestamp,
       anonymousId := if DefaultsAnonymousId(e.kind) then MakeAnonymousId(e.anonymousId, drawn.anonymousId)
                      else e.anonymousId,
       channel := "server")
  }

  /** The part of Enqueue that precedes the hand-off: dereference, validate, reject custom
      types, fill in defaults. `validate` is the known kinds' Validate, defined outside this model. */
  function Admit(msg: Message, validate: Event -> Option<Error>, drawn: Fresh): (r: Admission)
    ensures r.NilPanic? <==> msg == Pointer(None)
    ensures msg.Custom? ==> r == Rejected(if msg.validation.Some? then msg.validation.value else CustomType(msg.typeName))
    ensures r.Admitted? ==> Target(msg).Some? && r.event == Normalize(Target(msg).value, drawn)
  {
    match Dereference(msg)
    case None => NilPanic
    case Some(Value(e)) =>
      if validate(e).Some? then Rejected(validate(e).value) else Admitted(Normalize(e, drawn))
    case Some(Custom(name, validation)) =>
      if validation.Some? then Rejected(validation.value) else Rejected(CustomType(name))
  }

  /** makeContext: allocate a context for a nil one, then overwrite its library in place. */
  method MakeContext(context: Context?) returns (r: Context)
    modifies context
    ensures context != null ==> r == context
    ensures context == null ==> fresh(r)
    ensures r.library == LibraryInfo(LibraryName, Version)
  {
    if context == null {
      r := new Context();
    } else {
      r := context;
    }
    r.library := LibraryInfo(LibraryName, Version);
  }

  /** Pointers are admitted exactly like the values they point to. */
  lemma AdmitPointerAsValue(e: Event, validate: Event -> Option<Error>, drawn: Fresh)
    ensures Admit(Pointer(Some(e)), validate, drawn) == Admit(Value(e), validate, drawn)
  {
  }

  /** A known kind is rejected exactly with its own validation error, unchanged; otherwise it
      is admitted with the per-kind defaults. */
  lemma AdmitKnownKind(e: Event, validate: Event -> Option<Error>, drawn: Fresh)
    ensures validate(e).Some? ==> Admit(Value(e), validate, drawn) == Rejected(validate(e).value)
    ensures validate(e).None? ==> Admit(Value(e), validate, drawn) == Admitted(Normalize(e, drawn))
  {
  }

  /** Admitting an already admitted message again changes nothing, provided the drawn values
      are themselves set: every default only fills in what is still empty. */
  lemma NormalizeIdempotent(e: Event, f1: Fresh, f2: Fresh)
    requires f1.messageId != "" && f1.anonymousId != "" && f1.now != 0
    ensures Normalize(Normalize(e, f1), f2) == Normalize(e, f1)
  {
  }
}
