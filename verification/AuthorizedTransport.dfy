/** The transport that asks the control plane before and after every received frame and
    before every sent frame, while the policy may change between any two steps.

    One authorization asks two questions, one after the other: is the resource selected
    here, and is the peer admitted. */
module AuthorizedTransport {
  import opened Text

  type Frame = seq<nat>

  datatype Question = Selection | Admission

  /** What an authorization is for. */
  datatype Purpose = BeforeReceive | AfterReceive(frame: Frame) | BeforeSend(frame: Frame)

  datatype Pc =
    | Idle
    | AskSelection(purpose: Purpose)
    | AskAdmission(purpose: Purpose)
    | Authorized(purpose: Purpose)

  datatype State = State(
    selected: bool,
    admitted: bool,
    pc: Pc,
    pulled: seq<Frame>,     // frames taken off the wire
    delivered: seq<Frame>,  // frames handed to the synchronization engine
    sent: seq<Frame>)       // frames given to the wire

  datatype Action =
    | SetPolicy(selected: bool, admitted: bool)
    | Receive                 // the engine calls receive
    | Send(frame: Frame)      // the engine calls send
    | Ask                     // the next question of the authorization under way
    | Arrive(frame: Frame)    // the wire yields a frame
    | Finish                  // the call does what it was authorized to do

  predicate Enabled(s: State, a: Action) {
    match a
    case SetPolicy(_, _) => true
    case Receive => s.pc.Idle?
    case Send(_) => s.pc.Idle?
    case Ask => s.pc.AskSelection? || s.pc.AskAdmission?
    case Arrive(_) => s.pc == Authorized(BeforeReceive)
    case Finish => s.pc.Authorized? && !s.pc.purpose.BeforeReceive?
  }

  /** A refused authorization ends the call with "database sync access revoked". */
  function Apply(s: State, a: Action): State
    requires Enabled(s, a)
  {
    match a
    case SetPolicy(selected, admitted) => s.(selected := selected, admitted := admitted)
    case Receive => s.(pc := AskSelection(BeforeReceive))
    case Send(frame) => s.(pc := AskSelection(BeforeSend(frame)))
    case Ask =>
      (match s.pc
       case AskSelection(purpose) => s.(pc := if s.selected then AskAdmission(purpose) else Idle)
       case AskAdmission(purpose) => s.(pc := if s.admitted then Authorized(purpose) else Idle))
    case Arrive(frame) => s.(pc := AskSelection(AfterReceive(frame)), pulled := s.pulled + [frame])
    case Finish =>
      (match s.pc.purpose
       case AfterReceive(frame) => s.(pc := Idle, delivered := s.delivered + [frame])
       case BeforeSend(frame) => s.(pc := Idle, sent := s.sent + [frame]))
  }

  predicate IsRun(s: State, run: seq<Action>)
    decreases |run|
  {
    run == [] || (Enabled(s, run[0]) && IsRun(Apply(s, run[0]), run[1..]))
  }

  function After(s: State, run: seq<Action>): State
    requires IsRun(s, run)
    decreases |run|
  {
    if run == [] then s else After(Apply(s, run[0]), run[1..])
  }

  // ---------------------------------------------------------------- withdrawal

  predicate Withdrawn(s: State, q: Question) {
    match q case Selection => !s.selected case Admission => !s.admitted
  }

  /** The action does not restore what was withdrawn. */
  predicate NotRestored(a: Action, q: Question) {
    a.SetPolicy? ==> match q case Selection => !a.selected case Admission => !a.admitted
  }

  /** The call under way has already had its last answer to question q. */
  predicate Past(pc: Pc, q: Question) {
    && (pc.Authorized? || (pc.AskAdmission? && q.Selection?))
    && !pc.purpose.BeforeReceive?
  }

  /** The one output a call that is past its last question may still make. */
  predicate Outputs(before: State, after: State, pc: Pc, q: Question) {
    || (after.delivered == before.delivered && after.sent == before.sent)
    || (Past(pc, q) && pc.purpose.AfterReceive?
        && after.delivered == before.delivered + [pc.purpose.frame] && after.sent == before.sent)
    || (Past(pc, q) && pc.purpose.BeforeSend?
        && after.sent == before.sent + [pc.purpose.frame] && after.delivered == before.delivered)
  }

  /** A receive has already had its first answer to q, so it may still read the wire. */
  predicate MayPull(pc: Pc, q: Question) {
    (pc.Authorized? || (pc.AskAdmission? && q.Selection?)) && pc.purpose.BeforeReceive?
  }

  predicate Silent(before: State, after: State) {
    after.delivered == before.delivered && after.sent == before.sent
  }

  /** After the withdrawal of either permission, if it is never restored, at most one frame
      still goes through: the frame of the call that had already passed the question at that
      moment. Every other received frame is withheld and every other send refused; and at
      most one frame, that of a receive already past its first question, is still taken off
      the wire. */
  lemma {:induction false} AtMostOneAfterWithdrawal(s: State, run: seq<Action>, q: Question)
    requires IsRun(s, run) && Withdrawn(s, q)
    requires forall i :: 0 <= i < |run| ==> NotRestored(run[i], q)
    ensures Outputs(s, After(s, run), s.pc, q)
    ensures !Past(s.pc, q) ==> Silent(s, After(s, run))
    ensures s.pulled <= After(s, run).pulled
    ensures |After(s, run).pulled| <= |s.pulled| + (if MayPull(s.pc, q) then 1 else 0)
    decreases |run|
  {
    if run != [] {
      var s' := Apply(s, run[0]);
      assert NotRestored(run[0], q);
      assert forall i :: 0 <= i < |run[1..]| ==> run[1..][i] == run[i + 1];
      AtMostOneAfterWithdrawal(s', run[1..], q);
    }
  }

  predicate AsksAbout(pc: Pc, q: Question) {
    match q case Selection => pc.AskSelection? case Admission => pc.AskAdmission?
  }

  /** Once the withdrawn question has been asked again, nothing more goes through: no frame
      is delivered after a check that follows the withdrawal. */
  lemma NothingAfterRefusal(s: State, run: seq<Action>, q: Question)
    requires IsRun(s, run) && run != [] && run[0].Ask? && AsksAbout(s.pc, q) && Withdrawn(s, q)
    requires forall i :: 0 <= i < |run| ==> NotRestored(run[i], q)
    ensures Apply(s, run[0]).pc == Idle
    ensures Silent(s, After(s, run))
  {
    AtMostOneAfterWithdrawal(Apply(s, run[0]), run[1..], q);
  }

  // ---------------------------------------------------------------- while nothing is withdrawn

  lemma Continues(s: State, a: Action, more: seq<Action>)
    requires Enabled(s, a) && IsRun(Apply(s, a), more)
    ensures IsRun(s, [a] + more) && After(s, [a] + more) == After(Apply(s, a), more)
  {
    assert ([a] + more)[1..] == more;
  }

  /** An authorization that is given comes to its purpose; one that is refused ends the call. */
  lemma AskedTwice(s: State, purpose: Purpose, more: seq<Action>)
    requires s.pc == AskSelection(purpose) && s.selected && s.admitted
    requires IsRun(s.(pc := Authorized(purpose)), more)
    ensures IsRun(s, [Ask] + ([Ask] + more))
    ensures After(s, [Ask] + ([Ask] + more)) == After(s.(pc := Authorized(purpose)), more)
  {
    Continues(s.(pc := AskAdmission(purpose)), Ask, more);
    Continues(s, Ask, [Ask] + more);
  }

  /** While both permissions last, every frame that is sent goes out and nothing else changes. */
  lemma SendGoesOut(s: State, frame: Frame) returns (run: seq<Action>)
    requires s.pc.Idle? && s.selected && s.admitted
    ensures run == [Send(frame)] + ([Ask] + ([Ask] + [Finish]))
    ensures IsRun(s, run) && After(s, run) == s.(sent := s.sent + [frame])
  {
    run := [Send(frame)] + ([Ask] + ([Ask] + [Finish]));
    var asked := s.(pc := AskSelection(BeforeSend(frame)));
    var granted := s.(pc := Authorized(BeforeSend(frame)));
    assert [Finish] + [] == [Finish];
    Continues(granted, Finish, []);
    AskedTwice(asked, BeforeSend(frame), [Finish]);
    Continues(s, Send(frame), [Ask] + ([Ask] + [Finish]));
  }

  /** While both permissions last, every frame that arrives for a receive is delivered. */
  lemma ReceiveDelivers(s: State, frame: Frame) returns (run: seq<Action>)
    requires s.pc.Idle? && s.selected && s.admitted
    ensures run == [Receive] + ([Ask] + ([Ask] + ([Arrive(frame)] + ([Ask] + ([Ask] + [Finish])))))
    ensures IsRun(s, run)
    ensures After(s, run) == s.(pulled := s.pulled + [frame], delivered := s.delivered + [frame])
  {
    var last := [Ask] + ([Ask] + [Finish]);
    run := [Receive] + ([Ask] + ([Ask] + ([Arrive(frame)] + last)));
    var pulled := s.(pulled := s.pulled + [frame]);
    assert [Finish] + [] == [Finish];
    Continues(pulled.(pc := Authorized(AfterReceive(frame))), Finish, []);
    AskedTwice(pulled.(pc := AskSelection(AfterReceive(frame))), AfterReceive(frame), [Finish]);
    Continues(s.(pc := Authorized(BeforeReceive)), Arrive(frame), last);
    AskedTwice(s.(pc := AskSelection(BeforeReceive)), BeforeReceive, [Arrive(frame)] + last);
    Continues(s, Receive, [Ask] + ([Ask] + ([Arrive(frame)] + last)));
  }

  // ---------------------------------------------------------------- handshake frames

  const MAX_HANDSHAKE_BYTES := 4096

  type Bytes = s: seq<nat> | forall i :: 0 <= i < |s| ==> s[i] < 256

  function BigEndian(n: nat): (b: Bytes)
    requires n < 0x1_0000_0000
    ensures |b| == 4 && FromBigEndian(b) == n
  {
    var upper := n / 256;
    var high := upper / 256;
    [high / 256, high % 256, upper % 256, n % 256]
  }

  function FromBigEndian(b: Bytes): (n: nat)
    requires |b| == 4
  {
    ((b[0] * 256 + b[1]) * 256 + b[2]) * 256 + b[3]
  }

  /** `write_frame`: the bytes put on the stream, or `None` when the frame is too large. */
  function WriteFrame(frame: Bytes): Option<Bytes> {
    if |frame| > MAX_HANDSHAKE_BYTES then None else Some(BigEndian(|frame|) + frame)
  }

  datatype ReadResult = TooShort | TooLarge | Frame(frame: Bytes, rest: Bytes)

  /** `read_frame` on the bytes that arrive. */
  function ReadFrame(stream: Bytes, max: nat): ReadResult {
    if |stream| < 4 then TooShort
    else
      var n := FromBigEndian(stream[..4]);
      if n > max then TooLarge
      else if |stream| < 4 + n then TooShort
      else ReadResult.Frame(stream[4..4 + n], stream[4 + n..])
  }

  /** A written handshake frame is read back whole, leaving what follows it on the stream. */
  lemma FrameRoundTrip(frame: Bytes, rest: Bytes)
    requires WriteFrame(frame).Some?
    ensures ReadFrame(WriteFrame(frame).value + rest, MAX_HANDSHAKE_BYTES) == ReadResult.Frame(frame, rest)
  {
    var stream := WriteFrame(frame).value + rest;
    assert stream[..4] == BigEndian(|frame|);
    assert stream[4..4 + |frame|] == frame;
    assert stream[4 + |frame|..] == rest;
  }
}
