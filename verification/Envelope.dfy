/** The duplex message envelope and the checks a reader applies to it. */
module Envelope {
  import opened Numerals

  const PROTOCOL_VERSION := "special/1.0"
  const CANCEL := "cancel"

  /** A deadline of 0 stands for the zero time; an absent payload is empty. */
  datatype Message = Message(
    version: string, instance: string, id: string, reply: bool,
    verb: string, deadline: nat, payload: string, error: string)

  /** What a handler goroutine ends with: a marshalled value, an error, a recovered panic,
      or a value that could not be marshalled. */
  datatype Outcome = Value(payload: string) | Failed(text: string) | Panicked(detail: string)
    | Unencodable(text: string)

  const WRAP: nat := 0x1_0000_0000_0000_0000

  /** The serial the k-th call (counting from 0) draws from the uint64 counter. */
  function SerialOf(k: nat): nat { (k + 1) % WRAP }

  function CallId(prefix: string, serial: nat): string { prefix + "-" + Decimal(serial) }

  function RequestMessage(instance: string, id: string, verb: string, deadline: nat, raw: string): Message {
    Message(PROTOCOL_VERSION, instance, id, false, verb, deadline, raw, "")
  }

  function CancelMessage(instance: string, id: string): Message {
    Message(PROTOCOL_VERSION, instance, id, false, CANCEL, 0, "", "")
  }

  function ResponseMessage(instance: string, id: string, outcome: Outcome): Message {
    var blank := Message(PROTOCOL_VERSION, instance, id, true, "", 0, "", "");
    match outcome
    case Value(payload) => blank.(payload := payload)
    case Failed(text) => blank.(error := text)
    case Panicked(detail) => blank.(error := "special: handler panic: " + detail)
    case Unencodable(text) => blank.(error := text)
  }

  /** What `Call` makes of the reply it took: the error in it, or the payload that is then decoded. */
  datatype CallResult = Decodes(raw: string) | Fails(text: string)

  function MadeOf(reply: Message): CallResult {
    if reply.error != "" then Fails(reply.error) else Decodes(reply.payload)
  }

  /** A call always carries a marshalled, hence non-empty, payload; a cancel never does. */
  predicate IsRequest(m: Message) { !m.reply && m.payload != "" }
  predicate IsCancel(m: Message) { !m.reply && m.payload == "" }

  /** The envelope check made before the reader takes the lock. */
  predicate WellFormed(m: Message, instance: string) {
    && m.version == PROTOCOL_VERSION && m.instance == instance && m.id != ""
    && (if m.reply then
          m.verb == "" && m.deadline == 0 && (m.error == "") != (m.payload == "")
        else
          && m.error == ""
          && !(m.verb == CANCEL && (m.deadline != 0 || m.payload != ""))
          && !(m.verb != CANCEL && m.payload == ""))
  }

  /** Two calls of one peer have the same identifier exactly when their numbers agree modulo 2^64: identifiers are
      distinct until the counter has wrapped, and repeat from then on. */
  lemma CallIdsEqualIff(prefix: string, j: nat, k: nat)
    ensures CallId(prefix, SerialOf(j)) == CallId(prefix, SerialOf(k)) <==> j % WRAP == k % WRAP
  {
    var a, b := SerialOf(j), SerialOf(k);
    ValueOfDecimal(a);
    ValueOfDecimal(b);
    assert CallId(prefix, a)[|prefix| + 1..] == Decimal(a);
    assert CallId(prefix, b)[|prefix| + 1..] == Decimal(b);
    hide Decimal, Numerals.Value;
    assert a == b <==> j % WRAP == k % WRAP by { SerialsEqualIff(j, k); }
  }

  lemma SerialsEqualIff(j: nat, k: nat)
    ensures SerialOf(j) == SerialOf(k) <==> j % WRAP == k % WRAP
  {
  }

  /** The other side accepts a handler's reply exactly when there is a payload or an error text:
      a handler error with empty text yields a reply that closes the connection. */
  lemma ReplyAcceptedIff(instance: string, id: string, outcome: Outcome)
    requires id != ""
    ensures WellFormed(ResponseMessage(instance, id, outcome), instance) <==>
            match outcome
            case Value(payload) => payload != ""
            case Failed(text) => text != ""
            case Panicked(_) => true
            case Unencodable(text) => text != ""
  {
  }
}
