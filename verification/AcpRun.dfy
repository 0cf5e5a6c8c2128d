/**
  One request on a WorkBuddy process: the ACP session calls, then the loop over the process's messages. A worker
  object owns everything its process will ever print and the position read so far, so it can be reused.
*/
module AcpRun {
  import opened Wrappers
  import Decimal

  datatype Usage = Usage(promptTokens: int, completionTokens: int, credit: string)

  datatype UpdateKind = MessageChunk | StatusUpdate | ForbiddenAction | OtherUpdate

  datatype Update = Update(sessionId: string, kind: UpdateKind, isText: bool, text: string,
                           modelId: string, modelDone: bool, usage: Option<Usage>)

  /**
    One line printed by the process. A response carries the id of its request; `update` is present when the
    method is session/update and its parameters decode.
  */
  datatype Message =
    | Undecodable
    | Message(id: int, failed: bool, sessionId: string, endTurn: bool, update: Option<Update>)

  datatype Final = Final(outputText: string, model: string, usage: Option<(int, int)>, points: Option<int>)

  datatype Event = Delta(text: string) | Completed(final: Final) | Failed

  /**
    What the run cannot control: whether each delivery to the caller and each write to the process succeeds,
    whether the context is cancelled when reading stops, and whether the process was closed by the end.
  */
  datatype Environment = Environment(delivers: nat -> bool, writes: nat -> bool, directoryMade: bool,
                                     cancelled: bool, closed: bool)

  /** A caller that never cancels: every delivery is accepted. */
  ghost predicate NeverCancelled(env: Environment) {
    !env.cancelled && forall k :: env.delivers(k)
  }

  // ------------------------------------------------ what a stretch of messages says

  /** The update a message carries for this session, unless it answers the prompt. */
  function SessionUpdate(m: Message, session: string, prompt: int): Option<Update> {
    if m.Message? && m.id != prompt && m.update.Some? && m.update.value.sessionId == session then m.update else None
  }

  predicate Answers(m: Message, prompt: int) {
    m.Message? && m.id == prompt
  }

  /** A line or an update that makes the worker unfit, whatever was sent before. */
  predicate Unfit(m: Message, session: string, prompt: int) {
    || m.Undecodable?
    || match SessionUpdate(m, session, prompt) {
         case Some(u) => (u.kind.MessageChunk? && !u.isText) || u.kind.ForbiddenAction?
         case None => false
       }
  }

  /** Messages after which the run cannot succeed any more. */
  predicate Fatal(m: Message, session: string, prompt: int) {
    Unfit(m, session, prompt) || (Answers(m, prompt) && (m.failed || !m.endTurn))
  }

  predicate IsChunk(u: Update) {
    u.kind.MessageChunk? && u.isText && u.text != ""
  }

  /** The non-empty text chunks of the session, in order. */
  function Chunks(ms: seq<Message>, session: string, prompt: int): seq<string> {
    if ms == [] then [] else
    var before := Chunks(ms[..|ms| - 1], session, prompt);
    match SessionUpdate(ms[|ms| - 1], session, prompt)
    case Some(u) => if IsChunk(u) then before + [u.text] else before
    case None => before
  }

  function LastUsage(ms: seq<Message>, session: string, prompt: int): Option<Usage> {
    if ms == [] then None else
    var before := LastUsage(ms[..|ms| - 1], session, prompt);
    match SessionUpdate(ms[|ms| - 1], session, prompt)
    case Some(u) => if u.kind.StatusUpdate? && u.usage.Some? then u.usage else before
    case None => before
  }

  function LastModel(ms: seq<Message>, session: string, prompt: int, requested: string): string {
    if ms == [] then requested else
    var before := LastModel(ms[..|ms| - 1], session, prompt, requested);
    match SessionUpdate(ms[|ms| - 1], session, prompt)
    case Some(u) => if u.modelId != "" then u.modelId else before
    case None => before
  }

  predicate AnnouncesDone(m: Message, session: string, prompt: int) {
    match SessionUpdate(m, session, prompt)
    case Some(u) => u.kind.StatusUpdate? && u.modelDone
    case None => false
  }

  predicate SeenDone(ms: seq<Message>, session: string, prompt: int) {
    exists i :: 0 <= i < |ms| && AnnouncesDone(ms[i], session, prompt)
  }

  /** The model has announced its end and its usage: nothing more is needed from the process. */
  predicate Ready(ms: seq<Message>, session: string, prompt: int) {
    LastUsage(ms, session, prompt).Some? && SeenDone(ms, session, prompt)
  }

  /** Nothing in these messages settles the outcome. */
  ghost predicate Undecided(ms: seq<Message>, session: string, prompt: int) {
    forall i :: 0 <= i < |ms| ==>
      !Fatal(ms[i], session, prompt) && !Answers(ms[i], prompt) && !Ready(ms[..i + 1], session, prompt)
  }

  function Concat(parts: seq<string>): string {
    if parts == [] then "" else Concat(parts[..|parts| - 1]) + parts[|parts| - 1]
  }

  function Deltas(parts: seq<string>): (r: seq<Event>)
    ensures |r| == |parts|
    ensures forall i :: 0 <= i < |r| ==> r[i] == Delta(parts[i])
  {
    seq(|parts|, i requires 0 <= i < |parts| => Delta(parts[i]))
  }

  /** The cost line of a final event: a readable, non-negative credit. */
  function Points(credit: string): Option<int> {
    if credit == "" then None else
    match Decimal.ParseDecimal(credit)
    case Ok(nanos) => if nanos >= 0 then Some(nanos) else None
    case Err(_) => None
  }

  /** The completion that a stretch of messages calls for. */
  function FinalOf(ms: seq<Message>, session: string, prompt: int, requested: string): Final {
    var usage := LastUsage(ms, session, prompt);
    Final(Concat(Chunks(ms, session, prompt)), LastModel(ms, session, prompt, requested),
          if usage.Some? then Some((usage.value.promptTokens, usage.value.completionTokens)) else None,
          Points(if usage.Some? then usage.value.credit else ""))
  }

  /** The last message, and none before it, calls for a completion. */
  ghost predicate Settled(ms: seq<Message>, session: string, prompt: int) {
    && ms != []
    && Undecided(ms[..|ms| - 1], session, prompt)
    && !Fatal(ms[|ms| - 1], session, prompt)
    && (Answers(ms[|ms| - 1], prompt) || Ready(ms, session, prompt))
  }

  /** The last message, and none before it, ruins the run. */
  ghost predicate Ruined(ms: seq<Message>, session: string, prompt: int) {
    ms != [] && Undecided(ms[..|ms| - 1], session, prompt) && Fatal(ms[|ms| - 1], session, prompt)
  }

  function ChunkEvents(ms: seq<Message>, session: string, prompt: int): (r: seq<Event>)
    ensures forall i :: 0 <= i < |r| ==> r[i].Delta?
  {
    Deltas(Chunks(ms, session, prompt))
  }

  /** The events delivered so far and the next one, if the caller takes it. */
  function Sent(events: seq<Event>, accepted: bool, event: Event): seq<Event> {
    if accepted then events + [event] else events
  }

  /** Text deltas, then at most one terminal event. */
  ghost predicate WellFormed(events: seq<Event>) {
    forall i :: 0 <= i < |events| - 1 ==> events[i].Delta?
  }

  ghost predicate Terminated(events: seq<Event>) {
    events != [] && !events[|events| - 1].Delta?
  }

  /** The local variables of the loop summarize the messages read. */
  ghost predicate Tracks(ms: seq<Message>, session: string, prompt: int, requested: string,
                         output: string, model: string, usage: Option<(int, int)>, credit: string, modelDone: bool)
  {
    var last := LastUsage(ms, session, prompt);
    && output == Concat(Chunks(ms, session, prompt))
    && model == LastModel(ms, session, prompt, requested)
    && usage == (if last.Some? then Some((last.value.promptTokens, last.value.completionTokens)) else None)
    && credit == (if last.Some? then last.value.credit else "")
    && modelDone == SeenDone(ms, session, prompt)
  }

  lemma ChunksExtended(ms: seq<Message>, m: Message, session: string, prompt: int)
    ensures Chunks(ms + [m], session, prompt) ==
              match SessionUpdate(m, session, prompt)
              case Some(u) =>
                if IsChunk(u) then Chunks(ms, session, prompt) + [u.text]
                else Chunks(ms, session, prompt)
              case None => Chunks(ms, session, prompt)
  {
    assert (ms + [m])[..|ms + [m]| - 1] == ms;
  }

  lemma UsageExtended(ms: seq<Message>, m: Message, session: string, prompt: int)
    ensures LastUsage(ms + [m], session, prompt) ==
              match SessionUpdate(m, session, prompt)
              case Some(u) => if u.kind.StatusUpdate? && u.usage.Some? then u.usage else LastUsage(ms, session, prompt)
              case None => LastUsage(ms, session, prompt)
  {
    assert (ms + [m])[..|ms + [m]| - 1] == ms;
  }

  lemma ModelExtended(ms: seq<Message>, m: Message, session: string, prompt: int, requested: string)
    ensures LastModel(ms + [m], session, prompt, requested) ==
              match SessionUpdate(m, session, prompt)
              case Some(u) => if u.modelId != "" then u.modelId else LastModel(ms, session, prompt, requested)
              case None => LastModel(ms, session, prompt, requested)
  {
    assert (ms + [m])[..|ms + [m]| - 1] == ms;
  }

  lemma DoneExtended(ms: seq<Message>, m: Message, session: string, prompt: int)
    ensures SeenDone(ms + [m], session, prompt) <==> SeenDone(ms, session, prompt) || AnnouncesDone(m, session, prompt)
  {
    var all := ms + [m];
    assert all[|ms|] == m;
    assert forall i :: 0 <= i < |ms| ==> all[i] == ms[i];
  }

  /** What a message adds to each summary. */
  lemma Extended(ms: seq<Message>, m: Message, session: string, prompt: int, requested: string)
    ensures var u := SessionUpdate(m, session, prompt);
            && Chunks(ms + [m], session, prompt)
                 == (if u.Some? && IsChunk(u.value)
                     then Chunks(ms, session, prompt) + [u.value.text] else Chunks(ms, session, prompt))
            && LastUsage(ms + [m], session, prompt)
                 == (if u.Some? && u.value.kind.StatusUpdate? && u.value.usage.Some? then u.value.usage
                     else LastUsage(ms, session, prompt))
            && LastModel(ms + [m], session, prompt, requested)
                 == (if u.Some? && u.value.modelId != "" then u.value.modelId
                     else LastModel(ms, session, prompt, requested))
            && (SeenDone(ms + [m], session, prompt) <==>
                  SeenDone(ms, session, prompt) || AnnouncesDone(m, session, prompt))
  {
    hide Chunks, LastUsage, LastModel, SeenDone;
    ChunksExtended(ms, m, session, prompt);
    UsageExtended(ms, m, session, prompt);
    ModelExtended(ms, m, session, prompt, requested);
    DoneExtended(ms, m, session, prompt);
  }

  /** How one message moves the local variables, and the final event they would make. */
  lemma TracksExtended(ms: seq<Message>, m: Message, session: string, prompt: int, requested: string,
                       output: string, model: string, usage: Option<(int, int)>, credit: string, modelDone: bool)
    requires Tracks(ms, session, prompt, requested, output, model, usage, credit, modelDone)
    ensures match SessionUpdate(m, session, prompt)
            case None => Tracks(ms + [m], session, prompt, requested, output, model, usage, credit, modelDone)
            case Some(u) =>
              var counted := u.kind.StatusUpdate? && u.usage.Some?;
              Tracks(ms + [m], session, prompt, requested,
                     if IsChunk(u) then output + u.text else output,
                     if u.modelId != "" then u.modelId else model,
                     if counted then Some((u.usage.value.promptTokens, u.usage.value.completionTokens)) else usage,
                     if counted then u.usage.value.credit else credit,
                     modelDone || (u.kind.StatusUpdate? && u.modelDone))
    ensures match SessionUpdate(m, session, prompt)
            case None => ChunkEvents(ms + [m], session, prompt) == ChunkEvents(ms, session, prompt)
            case Some(u) =>
              ChunkEvents(ms + [m], session, prompt)
                == if IsChunk(u) then ChunkEvents(ms, session, prompt) + [Delta(u.text)]
                   else ChunkEvents(ms, session, prompt)
  {
    hide Chunks, LastUsage, LastModel, SeenDone, Concat, Deltas;
    Extended(ms, m, session, prompt, requested);
    match SessionUpdate(m, session, prompt)
    case Some(u) => ConcatExtended(Chunks(ms, session, prompt), u.text);
    case None =>
  }

  lemma FinalTracked(ms: seq<Message>, session: string, prompt: int, requested: string,
                     output: string, model: string, usage: Option<(int, int)>, credit: string, modelDone: bool)
    requires Tracks(ms, session, prompt, requested, output, model, usage, credit, modelDone)
    ensures Final(output, model, usage, Points(credit)) == FinalOf(ms, session, prompt, requested)
    ensures Ready(ms, session, prompt) <==> modelDone && usage.Some?
  {
    hide Chunks, LastUsage, LastModel, SeenDone, Concat, Points;
  }

  /** The messages read from `start` up to `end`. */
  ghost function Part(wire: seq<Message>, start: nat, end: nat): seq<Message>
    requires start <= end <= |wire|
  {
    wire[start..end]
  }

  lemma NothingRead(session: string, prompt: int, requested: string)
    ensures Tracks([], session, prompt, requested, "", requested, None, "", false)
    ensures Undecided([], session, prompt) && ChunkEvents([], session, prompt) == []
  {
  }

  lemma UndecidedExtended(ms: seq<Message>, m: Message, session: string, prompt: int)
    requires Undecided(ms, session, prompt)
    requires !Fatal(m, session, prompt) && !Answers(m, prompt) && !Ready(ms + [m], session, prompt)
    ensures Undecided(ms + [m], session, prompt)
  {
    var all := ms + [m];
    forall i | 0 <= i < |all|
      ensures !Fatal(all[i], session, prompt) && !Answers(all[i], prompt) && !Ready(all[..i + 1], session, prompt)
    {
      if i < |ms| {
        assert all[..i + 1] == ms[..i + 1];
      } else {
        assert all[..i + 1] == all;
      }
    }
  }

  lemma ConcatExtended(parts: seq<string>, part: string)
    ensures Concat(parts + [part]) == Concat(parts) + part
    ensures Deltas(parts + [part]) == Deltas(parts) + [Delta(part)]
  {
    assert (parts + [part])[..|parts|] == parts;
  }

  /** The local variables of the message loop. */
  datatype Locals = Locals(output: string, model: string, usage: Option<(int, int)>, credit: string, modelDone: bool)

  /** The loop has read these messages, nothing is settled yet, and every chunk was delivered. */
  ghost predicate Looping(ms: seq<Message>, session: string, prompt: int, requested: string, l: Locals,
                          events: seq<Event>)
  {
    && Undecided(ms, session, prompt)
    && !(l.modelDone && l.usage.Some?)
    && events == ChunkEvents(ms, session, prompt)
    && Tracks(ms, session, prompt, requested, l.output, l.model, l.usage, l.credit, l.modelDone)
  }

  /** The locals after an update of the session. */
  function Updated(l: Locals, u: Update): Locals {
    var counted := u.kind.StatusUpdate? && u.usage.Some?;
    Locals(if IsChunk(u) then l.output + u.text else l.output,
           if u.modelId != "" then u.modelId else l.model,
           if counted then Some((u.usage.value.promptTokens, u.usage.value.completionTokens)) else l.usage,
           if counted then u.usage.value.credit else l.credit,
           l.modelDone || (u.kind.StatusUpdate? && u.modelDone))
  }

  function Passed(events: seq<Event>, u: Update): seq<Event> {
    if IsChunk(u) then events + [Delta(u.text)] else events
  }

  function FinalFrom(l: Locals): Final {
    Final(l.output, l.model, l.usage, Points(l.credit))
  }

  /** What one more message makes of an unsettled loop. */
  lemma MessageRead(ms: seq<Message>, m: Message, session: string, prompt: int, requested: string, l: Locals,
                    events: seq<Event>)
    requires Looping(ms, session, prompt, requested, l, events)
    ensures var all := ms + [m];
            if Fatal(m, session, prompt) then
              Ruined(all, session, prompt) && events == ChunkEvents(all, session, prompt)
            else if Answers(m, prompt) then
              && Settled(all, session, prompt) && events == ChunkEvents(all, session, prompt)
              && FinalFrom(l) == FinalOf(all, session, prompt, requested)
            else
              match SessionUpdate(m, session, prompt)
              case None => Looping(all, session, prompt, requested, l, events)
              case Some(u) =>
                var after, sent := Updated(l, u), Passed(events, u);
                if after.modelDone && after.usage.Some? then
                  && Settled(all, session, prompt) && sent == ChunkEvents(all, session, prompt)
                  && FinalFrom(after) == FinalOf(all, session, prompt, requested)
                else Looping(all, session, prompt, requested, after, sent)
  {
    hide Chunks, LastUsage, LastModel, SeenDone, Concat, Deltas, Points, Undecided, Tracks, Ready, ChunkEvents, FinalOf;
    var all := ms + [m];
    assert all[..|all| - 1] == ms && all[|all| - 1] == m;
    TracksExtended(ms, m, session, prompt, requested, l.output, l.model, l.usage, l.credit, l.modelDone);
    if !Fatal(m, session, prompt) {
      match SessionUpdate(m, session, prompt)
      case None =>
        FinalTracked(all, session, prompt, requested, l.output, l.model, l.usage, l.credit, l.modelDone);
        if !Answers(m, prompt) {
          UndecidedExtended(ms, m, session, prompt);
        }
      case Some(u) =>
        var after := Updated(l, u);
        FinalTracked(all, session, prompt, requested, after.output, after.model, after.usage, after.credit,
                     after.modelDone);
        if !(after.modelDone && after.usage.Some?) {
          UndecidedExtended(ms, m, session, prompt);
        }
    }
  }

  /** The locals and events after an update: they call for the completion, or the loop goes on. */
  ghost predicate Absorbed(ms: seq<Message>, session: string, prompt: int, requested: string, l: Locals,
                           events: seq<Event>)
  {
    if l.modelDone && l.usage.Some? then
      && Settled(ms, session, prompt) && events == ChunkEvents(ms, session, prompt)
      && FinalFrom(l) == FinalOf(ms, session, prompt, requested)
    else Looping(ms, session, prompt, requested, l, events)
  }

  lemma AbsorbedMeans(ms: seq<Message>, session: string, prompt: int, requested: string, l: Locals, events: seq<Event>)
    requires Absorbed(ms, session, prompt, requested, l, events)
    ensures events == ChunkEvents(ms, session, prompt)
  {
  }

  /** The same for the next message of the wire. */
  lemma NextRead(wire: seq<Message>, start: nat, position: nat, session: string, prompt: int, requested: string,
                 l: Locals, events: seq<Event>)
    requires start <= position < |wire|
    requires Looping(Part(wire, start, position), session, prompt, requested, l, events)
    ensures var m, all := wire[position], Part(wire, start, position + 1);
            if Fatal(m, session, prompt) then
              Ruined(all, session, prompt) && events == ChunkEvents(all, session, prompt)
            else if Answers(m, prompt) then
              && Settled(all, session, prompt) && events == ChunkEvents(all, session, prompt)
              && FinalFrom(l) == FinalOf(all, session, prompt, requested)
            else
              match SessionUpdate(m, session, prompt)
              case None => Looping(all, session, prompt, requested, l, events)
              case Some(u) =>
                Absorbed(all, session, prompt, requested, Updated(l, u), Passed(events, u))
  {
    hide Looping, Ruined, Settled, ChunkEvents, FinalOf, FinalFrom, Fatal, SessionUpdate, Updated, Passed;
    MessageRead(wire[start..position], wire[position], session, prompt, requested, l, events);
    assert wire[start..position + 1] == wire[start..position] + [wire[position]];
  }

  /**
    The events of a prompt whose outcome was settled by the last of these messages, or by the end of the output:
    the text chunks and one terminal event, or an initial part of the chunks when the caller left.
  */
  ghost predicate Outcome(env: Environment, ms: seq<Message>, ended: bool, session: string, prompt: int,
                          requested: string,
                          events: seq<Event>)
  {
    && WellFormed(events)
    && (Terminated(events) ==>
          || (Settled(ms, session, prompt)
              && events == ChunkEvents(ms, session, prompt) + [Completed(FinalOf(ms, session, prompt, requested))])
          || (events == ChunkEvents(ms, session, prompt) + [Failed]
              && (Ruined(ms, session, prompt) || (ended && Undecided(ms, session, prompt)))))
    && (!Terminated(events) ==> events <= ChunkEvents(ms, session, prompt))
    && (NeverCancelled(env) ==> Terminated(events))
  }

  lemma OutcomeFailed(env: Environment, ms: seq<Message>, ended: bool, session: string, prompt: int, requested: string,
                      accepted: bool)
    requires Ruined(ms, session, prompt) || (ended && Undecided(ms, session, prompt))
    requires NeverCancelled(env) ==> accepted
    ensures Outcome(env, ms, ended, session, prompt, requested,
                    Sent(ChunkEvents(ms, session, prompt), accepted, Failed))
  {
    hide Chunks, Deltas, Ruined, Undecided, FinalOf;
  }

  /** The completion these messages call for was delivered after all their chunks. */
  ghost predicate Told(ms: seq<Message>, session: string, prompt: int, requested: string, events: seq<Event>) {
    && Settled(ms, session, prompt)
    && events == ChunkEvents(ms, session, prompt) + [Completed(FinalOf(ms, session, prompt, requested))]
  }

  lemma OutcomeSettled(env: Environment, ms: seq<Message>, ended: bool, session: string, prompt: int, requested: string,
                       events: seq<Event>)
    requires Told(ms, session, prompt, requested, events)
    ensures Outcome(env, ms, ended, session, prompt, requested, events)
    ensures events != [] && Terminated(events) && events[|events| - 1].Completed?
  {
    hide Chunks, Deltas, Settled, FinalOf;
  }

  lemma OutcomeCut(env: Environment, ms: seq<Message>, ended: bool, session: string, prompt: int, requested: string,
                   events: seq<Event>)
    requires events <= ChunkEvents(ms, session, prompt) && !NeverCancelled(env)
    ensures Outcome(env, ms, ended, session, prompt, requested, events)
  {
    hide Chunks, Deltas, FinalOf;
  }

  lemma Taken(env: Environment, k: nat)
    ensures NeverCancelled(env) ==> !env.cancelled && env.delivers(k)
  {
  }

  lemma PassedMeans(events: seq<Event>, u: Update)
    ensures Passed(events, u) == if IsChunk(u) then events + [Delta(u.text)] else events
  {
  }

  lemma LoopStart(wire: seq<Message>, start: nat, session: string, prompt: int, requested: string)
    requires start <= |wire|
    ensures Looping(Part(wire, start, start), session, prompt, requested, Locals("", requested, None, "", false), [])
  {
    NothingRead(session, prompt, requested);
  }

  lemma LoopingMeans(ms: seq<Message>, session: string, prompt: int, requested: string, l: Locals, events: seq<Event>)
    requires Looping(ms, session, prompt, requested, l, events)
    ensures Undecided(ms, session, prompt) && events == ChunkEvents(ms, session, prompt)
  {
  }

  /** The outcome is a function of the messages: at most one prefix settles or ruins the run. */
  lemma OutcomeIsUnique(ms: seq<Message>, i: nat, j: nat, session: string, prompt: int)
    requires i <= j <= |ms|
    requires Settled(ms[..i], session, prompt) || Ruined(ms[..i], session, prompt)
    requires Settled(ms[..j], session, prompt) || Ruined(ms[..j], session, prompt)
    ensures i == j
    ensures Settled(ms[..i], session, prompt) <==> !Ruined(ms[..i], session, prompt)
  {
    assert ms[..i][i - 1] == ms[i - 1];
    assert ms[..j][..j - 1] == ms[..j - 1];
    if i < j {
      UndecidedPrefix(ms, i, j - 1, session, prompt);
      assert false;
    }
  }

  lemma UndecidedPrefix(ms: seq<Message>, i: nat, j: nat, session: string, prompt: int)
    requires 0 < i <= j <= |ms| && Undecided(ms[..j], session, prompt)
    ensures !Fatal(ms[i - 1], session, prompt) && !Answers(ms[i - 1], prompt) && !Ready(ms[..i], session, prompt)
  {
    assert ms[..j][i - 1] == ms[i - 1];
    assert ms[..j][..i] == ms[..i];
  }

  // ------------------------------------------------ the same on the fields of the messages

  /** An update of this session that does not come with the answer to the prompt. */
  predicate Speaks(m: Message, session: string, prompt: int) {
    m.Message? && m.id != prompt && m.update.Some? && m.update.value.sessionId == session
  }

  /** The process acts on its own, or sends something that is no text. */
  predicate Disallowed(m: Message, session: string, prompt: int) {
    && Speaks(m, session, prompt)
    && match m.update.value.kind
       case ForbiddenAction => true
       case MessageChunk => !m.update.value.isText
       case StatusUpdate => false
       case OtherUpdate => false
  }

  /** The prompt was answered with the end of the turn, or usage and end of the model were announced. */
  ghost predicate Finished(ms: seq<Message>, session: string, prompt: int) {
    || (exists i :: 0 <= i < |ms| && ms[i].Message? && ms[i].id == prompt && !ms[i].failed && ms[i].endTurn)
    || (&& (exists i :: 0 <= i < |ms| && Speaks(ms[i], session, prompt) && ms[i].update.value.kind.StatusUpdate?
                     && ms[i].update.value.usage.Some?)
        && (exists i :: 0 <= i < |ms| && Speaks(ms[i], session, prompt) && ms[i].update.value.kind.StatusUpdate?
                     && ms[i].update.value.modelDone))
  }

  /** Every message can be read and is allowed, and none is an answer that is not the end of the turn. */
  ghost predicate AllGood(ms: seq<Message>, session: string, prompt: int) {
    forall i :: 0 <= i < |ms| ==>
      && ms[i].Message? && !Disallowed(ms[i], session, prompt)
      && (ms[i].id == prompt ==> !ms[i].failed && ms[i].endTurn)
  }

  lemma UnfitMeans(m: Message, session: string, prompt: int)
    ensures Unfit(m, session, prompt) <==> m.Undecodable? || Disallowed(m, session, prompt)
    ensures SessionUpdate(m, session, prompt).Some? <==> Speaks(m, session, prompt)
    ensures Speaks(m, session, prompt) ==> SessionUpdate(m, session, prompt) == m.update
  {
  }

  /** The last usage is that of the last status update that has one. */
  lemma {:induction false} LastUsageMeans(ms: seq<Message>, session: string, prompt: int) returns (k: int)
    ensures LastUsage(ms, session, prompt).Some? ==>
              && 0 <= k < |ms| && Speaks(ms[k], session, prompt) && ms[k].update.value.kind.StatusUpdate?
              && ms[k].update.value.usage == LastUsage(ms, session, prompt)
    ensures LastUsage(ms, session, prompt).None? ==> k == -1
    ensures forall i :: k < i < |ms| && Speaks(ms[i], session, prompt) && ms[i].update.value.kind.StatusUpdate? ==>
              ms[i].update.value.usage.None?
  {
    if ms == [] {
      k := -1;
    } else {
      var last := |ms| - 1;
      k := LastUsageMeans(ms[..last], session, prompt);
      assert forall i :: 0 <= i < last ==> ms[..last][i] == ms[i];
      UnfitMeans(ms[last], session, prompt);
      if Speaks(ms[last], session, prompt) && ms[last].update.value.kind.StatusUpdate?
         && ms[last].update.value.usage.Some? {
        k := last;
      }
    }
  }

  /** The model is the last one an update names, or the requested one. */
  lemma {:induction false} LastModelMeans(ms: seq<Message>, session: string, prompt: int, requested: string)
    returns (k: int)
    ensures k >= 0 ==>
              && k < |ms| && Speaks(ms[k], session, prompt) && ms[k].update.value.modelId != ""
              && ms[k].update.value.modelId == LastModel(ms, session, prompt, requested)
    ensures k < 0 ==> k == -1 && LastModel(ms, session, prompt, requested) == requested
    ensures forall i :: k < i < |ms| && Speaks(ms[i], session, prompt) ==> ms[i].update.value.modelId == ""
  {
    if ms == [] {
      k := -1;
    } else {
      var last := |ms| - 1;
      k := LastModelMeans(ms[..last], session, prompt, requested);
      assert forall i :: 0 <= i < last ==> ms[..last][i] == ms[i];
      UnfitMeans(ms[last], session, prompt);
      if Speaks(ms[last], session, prompt) && ms[last].update.value.modelId != "" {
        k := last;
      }
    }
  }

  /** One more message adds its text exactly when it is a text chunk of this session and not empty. */
  lemma ChunkAdded(ms: seq<Message>, m: Message, session: string, prompt: int)
    ensures Chunks([], session, prompt) == []
    ensures Chunks(ms + [m], session, prompt)
         == Chunks(ms, session, prompt)
            + if Speaks(m, session, prompt) && m.update.value.kind.MessageChunk? && m.update.value.isText
                 && m.update.value.text != ""
              then [m.update.value.text] else []
  {
    assert (ms + [m])[..|ms|] == ms;
  }

  /** The credit of a final event is reported exactly when it is an amount that is not negative. */
  lemma PointsMeans(credit: string, n: int)
    ensures Points(credit) == Some(n) <==> credit != "" && Decimal.ParseDecimal(credit) == Ok(n) && n >= 0
  {
    hide Decimal.ParseDecimal;
  }

  lemma ReadyMeans(ms: seq<Message>, session: string, prompt: int)
    ensures Finished(ms, session, prompt)
       <==> || Ready(ms, session, prompt)
            || exists i :: 0 <= i < |ms| && ms[i].Message? && ms[i].id == prompt && !ms[i].failed && ms[i].endTurn
  {
    hide LastUsage;
    var k := LastUsageMeans(ms, session, prompt);
    forall i | 0 <= i < |ms|
      ensures AnnouncesDone(ms[i], session, prompt)
         <==> && Speaks(ms[i], session, prompt) && ms[i].update.value.kind.StatusUpdate?
              && ms[i].update.value.modelDone
    {
      UnfitMeans(ms[i], session, prompt);
    }
  }

  lemma FinishedGrows(ms: seq<Message>, more: seq<Message>, session: string, prompt: int)
    requires ms <= more && Finished(ms, session, prompt)
    ensures Finished(more, session, prompt)
  {
    assert forall i :: 0 <= i < |ms| ==> more[i] == ms[i];
  }

  /** Nothing is decided as long as every message is good and nothing is finished. */
  lemma UndecidedMeans(ms: seq<Message>, session: string, prompt: int)
    ensures Undecided(ms, session, prompt) <==> AllGood(ms, session, prompt) && !Finished(ms, session, prompt)
  {
    hide LastUsage, SeenDone, Ready;
    forall i | 0 <= i < |ms|
      ensures Unfit(ms[i], session, prompt) <==> ms[i].Undecodable? || Disallowed(ms[i], session, prompt)
    {
      UnfitMeans(ms[i], session, prompt);
    }
    hide Unfit, Disallowed;
    forall i | 0 <= i <= |ms|
      ensures Ready(ms[..i], session, prompt) ==> Finished(ms[..i], session, prompt) && Finished(ms, session, prompt)
    {
      ReadyMeans(ms[..i], session, prompt);
      if Ready(ms[..i], session, prompt) {
        FinishedGrows(ms[..i], ms, session, prompt);
      }
    }
    ReadyMeans(ms, session, prompt);
    assert ms[..|ms|] == ms;
    NothingReady(session, prompt);
    if ms != [] {
      var last := |ms| - 1;
      assert ms[..last + 1] == ms;
      assert Undecided(ms, session, prompt) ==> !Answers(ms[last], prompt) && !Ready(ms[..last + 1], session, prompt);
    }
  }

  lemma NothingReady(session: string, prompt: int)
    ensures !Ready([], session, prompt)
  {
  }

  /** A completion is due after the first message that finishes the run, if every message up to it was good. */
  lemma SettledMeans(ms: seq<Message>, session: string, prompt: int)
    ensures Settled(ms, session, prompt)
       <==> && ms != [] && AllGood(ms, session, prompt)
            && Finished(ms, session, prompt) && !Finished(ms[..|ms| - 1], session, prompt)
  {
    hide LastUsage, SeenDone, Ready, Undecided, Finished;
    if ms != [] {
      var last := |ms| - 1;
      UndecidedMeans(ms[..last], session, prompt);
      UnfitMeans(ms[last], session, prompt);
      hide Unfit, Disallowed;
      ReadyMeans(ms, session, prompt);
      GoodMore(ms, session, prompt);
      if !Finished(ms[..last], session, prompt) {
        NoEarlierAnswer(ms, session, prompt);
      }
    }
  }

  /** A failure is due after the first message that is not good, if nothing was finished before it. */
  lemma RuinedMeans(ms: seq<Message>, session: string, prompt: int)
    ensures Ruined(ms, session, prompt)
       <==> && ms != [] && !Finished(ms[..|ms| - 1], session, prompt)
            && AllGood(ms[..|ms| - 1], session, prompt) && !AllGood(ms, session, prompt)
  {
    hide LastUsage, SeenDone, Ready, Undecided, Finished;
    if ms != [] {
      UndecidedMeans(ms[..|ms| - 1], session, prompt);
      UnfitMeans(ms[|ms| - 1], session, prompt);
      hide Unfit, Disallowed;
      GoodMore(ms, session, prompt);
    }
  }

  lemma GoodMore(ms: seq<Message>, session: string, prompt: int)
    requires ms != []
    ensures AllGood(ms, session, prompt)
       <==> && AllGood(ms[..|ms| - 1], session, prompt) && ms[|ms| - 1].Message?
            && !Disallowed(ms[|ms| - 1], session, prompt)
            && (ms[|ms| - 1].id == prompt ==> !ms[|ms| - 1].failed && ms[|ms| - 1].endTurn)
  {
    hide Disallowed;
    assert forall i :: 0 <= i < |ms| - 1 ==> ms[..|ms| - 1][i] == ms[i];
  }

  lemma NoEarlierAnswer(ms: seq<Message>, session: string, prompt: int)
    requires ms != [] && !Finished(ms[..|ms| - 1], session, prompt)
    ensures forall i :: 0 <= i < |ms| - 1 && ms[i].Message? && ms[i].id == prompt ==> ms[i].failed || !ms[i].endTurn
  {
    assert forall i :: 0 <= i < |ms| - 1 ==> ms[..|ms| - 1][i] == ms[i];
  }

  /** What a final event says: the counts under their own names, and the credit of the same update. */
  lemma FinalMeans(ms: seq<Message>, session: string, prompt: int, requested: string)
    ensures var f, u := FinalOf(ms, session, prompt, requested), LastUsage(ms, session, prompt);
            && f.outputText == Concat(Chunks(ms, session, prompt))
            && f.model == LastModel(ms, session, prompt, requested)
            && (u.None? ==> f.usage.None? && f.points.None?)
            && (u.Some? ==>
                  && f.usage.Some? && f.usage.value.0 == u.value.promptTokens
                  && f.usage.value.1 == u.value.completionTokens && f.points == Points(u.value.credit))
  {
    hide Chunks, LastModel, Decimal.ParseDecimal;
  }

  /** The message before `k` is not good, and nothing was finished before it. */
  ghost predicate FailsAt(wire: seq<Message>, start: nat, k: nat, session: string, prompt: int) {
    && start < k <= |wire| && !AllGood(wire[start..k], session, prompt)
    && !Finished(wire[start..k - 1], session, prompt)
  }

  /** All messages up to `k` are good, and the last one finishes the run. */
  ghost predicate CompletesAt(wire: seq<Message>, start: nat, k: nat, session: string, prompt: int) {
    && start < k <= |wire| && AllGood(wire[start..k], session, prompt)
    && Finished(wire[start..k], session, prompt) && !Finished(wire[start..k - 1], session, prompt)
  }

  /**
    A message that is not good, before anything is finished: there is no completion, and a caller that takes everything
    is told of the failure.
  */
  lemma BadMessageFails(env: Environment, wire: seq<Message>, start: nat, stop: nat, k: nat, session: string,
                        prompt: int, requested: string, events: seq<Event>)
    requires start <= stop <= |wire| && FailsAt(wire, start, k, session, prompt)
    requires Outcome(env, wire[start..stop], stop == |wire|, session, prompt, requested, events)
    ensures forall f :: Completed(f) !in events
    ensures NeverCancelled(env) ==> events != [] && events[|events| - 1].Failed?
  {
    hide Chunks, FinalOf, Disallowed, Finished, NeverCancelled;
    var ms := wire[start..stop];
    SettledMeans(ms, session, prompt);
    hide Settled, Ruined, Undecided;
    if k <= stop {
      assert ms[..k - start] == wire[start..k];
      BadPrefix(ms, k - start, session, prompt);
    } else if Finished(ms, session, prompt) {
      FinishedGrows(ms, wire[start..k - 1], session, prompt);
      assert false;
    }
  }

  /** An action of the process, or a chunk that is no text, is such a message. */
  lemma ActionFails(wire: seq<Message>, start: nat, k: nat, session: string, prompt: int)
    requires start <= k < |wire| && !Finished(wire[start..k], session, prompt)
    requires wire[k].Message? && wire[k].id != prompt && wire[k].update.Some?
    requires var u := wire[k].update.value;
             u.sessionId == session && (u.kind == ForbiddenAction || (u.kind == MessageChunk && !u.isText))
    ensures FailsAt(wire, start, k + 1, session, prompt)
  {
    var ms := wire[start..k + 1];
    assert ms[k - start] == wire[k] && Disallowed(ms[k - start], session, prompt);
    assert start < k + 1 <= |wire| && wire[start..k + 1 - 1] == wire[start..k];
  }

  lemma BadPrefix(ms: seq<Message>, n: nat, session: string, prompt: int)
    requires n <= |ms| && !AllGood(ms[..n], session, prompt)
    ensures !AllGood(ms, session, prompt)
  {
    hide Disallowed;
  }

  /** Good messages of which the last one finishes the run are completed with what they say. */
  lemma GoodRunCompletes(env: Environment, wire: seq<Message>, start: nat, stop: nat, k: nat, session: string,
                         prompt: int, requested: string, events: seq<Event>)
    requires start <= stop <= |wire| && NeverCancelled(env) && CompletesAt(wire, start, k, session, prompt)
    requires Outcome(env, wire[start..stop], stop == |wire|, session, prompt, requested, events)
    ensures events != []
    ensures events[|events| - 1] == Completed(FinalOf(wire[start..k], session, prompt, requested))
  {
    hide Chunks, FinalOf, Disallowed, Finished, NeverCancelled, Undecided;
    assert wire[start..k][..k - start - 1] == wire[start..k - 1];
    SettledMeans(wire[start..k], session, prompt);
    UndecidedMeans(wire[start..stop], session, prompt);
    var rest := wire[start..];
    assert rest[..stop - start] == wire[start..stop] && rest[..k - start] == wire[start..k];
    hide Settled, Ruined;
    if stop == |wire| && Undecided(wire[start..stop], session, prompt) {
      FinishedGrows(wire[start..k], wire[start..stop], session, prompt);
      assert false;
    } else if k <= stop {
      OutcomeIsUnique(rest, k - start, stop - start, session, prompt);
    } else {
      OutcomeIsUnique(rest, stop - start, k - start, session, prompt);
    }
  }

  /** After the completion at `stop`, message `k` answers the prompt, and all between can be read and is allowed. */
  ghost predicate Drained(wire: seq<Message>, stop: nat, k: nat, session: string, prompt: int) {
    && stop - 1 <= k < |wire| && wire[k].Message? && wire[k].id == prompt
    && forall j :: stop <= j < k ==> wire[j].Message? && wire[j].id != prompt && !Disallowed(wire[j], session, prompt)
  }

  /** A worker may be reused when its process runs, it was told of a completion, and the prompt was answered. */
  ghost predicate MayBeReused(env: Environment, wire: seq<Message>, stop: nat, session: string, prompt: int,
                              events: seq<Event>)
  {
    && !env.closed && events != [] && events[|events| - 1].Completed?
    && exists k :: Drained(wire, stop, k, session, prompt)
  }

  lemma NotReused(env: Environment, wire: seq<Message>, stop: nat, session: string, prompt: int, events: seq<Event>)
    requires (events != [] ==> !events[|events| - 1].Completed?) || forall k :: !Drained(wire, stop, k, session, prompt)
    ensures !MayBeReused(env, wire, stop, session, prompt, events)
  {
    hide Drained;
  }

  lemma ReusedAfter(env: Environment, wire: seq<Message>, stop: nat, k: nat, session: string, prompt: int,
                    events: seq<Event>)
    requires Drained(wire, stop, k, session, prompt) && events != [] && events[|events| - 1].Completed?
    ensures MayBeReused(env, wire, stop, session, prompt, events) <==> !env.closed
  {
    hide Drained;
  }

  /** Only deltas, or a failure behind them. */
  lemma NoCompletionYet(ms: seq<Message>, session: string, prompt: int, accepted: bool)
    ensures var events := Sent(ChunkEvents(ms, session, prompt), accepted, Failed);
            events != [] ==> !events[|events| - 1].Completed?
    ensures var events := ChunkEvents(ms, session, prompt);
            events != [] ==> !events[|events| - 1].Completed?
  {
    hide Chunks;
  }

  /** Leaving with a failure that is offered to the caller. */
  lemma FailedExit(env: Environment, wire: seq<Message>, start: nat, stop: nat, session: string, prompt: int,
                   requested: string, events: seq<Event>, accepted: bool)
    requires start <= stop <= |wire| && events == ChunkEvents(Part(wire, start, stop), session, prompt)
    requires || Ruined(Part(wire, start, stop), session, prompt)
             || (stop == |wire| && Undecided(Part(wire, start, stop), session, prompt))
    requires accepted == env.delivers(|events|) || accepted == (!env.cancelled && env.delivers(|events|))
    ensures var sent := Sent(events, accepted, Failed);
            && Outcome(env, Part(wire, start, stop), stop == |wire|, session, prompt, requested, sent)
            && !MayBeReused(env, wire, stop, session, prompt, sent)
  {
    hide ChunkEvents, Outcome, Ruined, Undecided, NeverCancelled, MayBeReused, Sent;
    Taken(env, |events|);
    OutcomeFailed(env, Part(wire, start, stop), stop == |wire|, session, prompt, requested, accepted);
    NoCompletionYet(Part(wire, start, stop), session, prompt, accepted);
    NotReused(env, wire, stop, session, prompt, Sent(events, accepted, Failed));
  }

  /** Leaving because the caller did not take the chunk of the last message. */
  lemma CutExit(env: Environment, wire: seq<Message>, start: nat, stop: nat, session: string, prompt: int,
                requested: string, events: seq<Event>, all: seq<Event>)
    requires start <= stop <= |wire| && !env.delivers(|events|)
    requires events <= all == ChunkEvents(Part(wire, start, stop), session, prompt)
    ensures Outcome(env, Part(wire, start, stop), stop == |wire|, session, prompt, requested, events)
    ensures !MayBeReused(env, wire, stop, session, prompt, events)
  {
    hide Outcome, NeverCancelled, MayBeReused, Chunks;
    Taken(env, |events|);
    OutcomeCut(env, Part(wire, start, stop), stop == |wire|, session, prompt, requested, events);
    NotReused(env, wire, stop, session, prompt, events);
  }

  /** The state of the loop after a completion that came without an answer. */
  ghost predicate Draining(wire: seq<Message>, start: nat, stop: nat, position: nat, session: string, prompt: int) {
    && start < stop <= position <= |wire|
    && AllGood(wire[start..stop], session, prompt) && wire[stop - 1].Message? && wire[stop - 1].id != prompt
    && forall j :: stop <= j < position ==>
         wire[j].Message? && wire[j].id != prompt && !Disallowed(wire[j], session, prompt)
  }

  /** All that was read up to here could be read and was allowed. */
  ghost predicate AllAllowed(wire: seq<Message>, start: nat, end: nat, session: string, prompt: int)
    requires start <= end <= |wire|
  {
    forall k :: start <= k < end ==> wire[k].Message? && !Disallowed(wire[k], session, prompt)
  }

  /** The last message read answers the prompt, and all that was read could be read and was allowed. */
  ghost predicate Answered(wire: seq<Message>, start: nat, end: nat, session: string, prompt: int) {
    start < end <= |wire| && Answers(wire[end - 1], prompt) && AllAllowed(wire, start, end, session, prompt)
  }

  lemma DrainStarts(wire: seq<Message>, start: nat, stop: nat, session: string, prompt: int, requested: string,
                    events: seq<Event>)
    requires start < stop <= |wire| && Told(Part(wire, start, stop), session, prompt, requested, events)
    ensures if Answers(wire[stop - 1], prompt) then
              Drained(wire, stop, stop - 1, session, prompt) && Answered(wire, start, stop, session, prompt)
            else Draining(wire, start, stop, stop, session, prompt)
  {
    SettledMeans(wire[start..stop], session, prompt);
    hide Settled, Finished, Disallowed;
    assert forall k :: start <= k < stop ==> wire[k] == wire[start..stop][k - start];
  }

  /** One more message after a completion. */
  lemma DrainStep(wire: seq<Message>, start: nat, stop: nat, position: nat, session: string, prompt: int)
    requires position < |wire| && Draining(wire, start, stop, position, session, prompt)
    ensures Answers(wire[position], prompt) ==>
              Drained(wire, stop, position, session, prompt) && Answered(wire, start, position + 1, session, prompt)
    ensures !Answers(wire[position], prompt) && Unfit(wire[position], session, prompt) ==>
              forall k :: !Drained(wire, stop, k, session, prompt)
    ensures !Answers(wire[position], prompt) && !Unfit(wire[position], session, prompt) ==>
              Draining(wire, start, stop, position + 1, session, prompt)
  {
    UnfitMeans(wire[position], session, prompt);
    hide Unfit;
    assert forall k :: start <= k < stop ==> wire[k] == wire[start..stop][k - start];
  }

  lemma DrainEnds(wire: seq<Message>, start: nat, stop: nat, session: string, prompt: int)
    requires Draining(wire, start, stop, |wire|, session, prompt)
    ensures forall k :: !Drained(wire, stop, k, session, prompt)
  {
    hide Disallowed;
  }

  // ------------------------------------------------ the worker

  class AcpWorker {
    const wire: seq<Message>
    var position: nat
    var nextId: nat
    /** Requests written whose response has not been read. */
    ghost var unanswered: set<nat>

    ghost predicate Valid()
      reads this
    {
      position <= |wire| && forall id :: id in unanswered ==> id <= nextId
    }

    constructor (wire: seq<Message>)
      ensures Valid() && this.wire == wire && position == 0 && nextId == 0 && unanswered == {}
    {
      this.wire := wire;
      position, nextId, unanswered := 0, 0, {};
    }

    /** Writes a request under a new id; false when the process no longer takes input. */
    method WriteRpc(accepted: bool) returns (id: nat)
      requires Valid()
      modifies this`nextId, this`unanswered
      ensures Valid() && id == nextId == old(nextId) + 1
      ensures unanswered == if accepted then old(unanswered) + {id} else old(unanswered)
    {
      nextId := nextId + 1;
      id := nextId;
      if accepted {
        unanswered := unanswered + {id};
      }
    }

    /** Skips to the response of a request; fails on an error response, an unreadable line or the end. */
    method WaitRpcResult(wanted: nat) returns (result: Option<Message>)
      requires Valid()
      modifies this`position, this`unanswered
      ensures Valid() && old(position) <= position
      ensures result.Some? ==>
                && old(position) < position && wire[position - 1] == result.value
                && Answers(result.value, wanted) && !result.value.failed
                && (forall j :: old(position) <= j < position - 1 ==> wire[j].Message? && wire[j].id != wanted)
                && unanswered == old(unanswered) - {wanted}
      ensures result.None? ==>
                || position == |wire|
                || (old(position) < position
                    && (wire[position - 1].Undecodable?
                        || (Answers(wire[position - 1], wanted) && wire[position - 1].failed)))
    {
      while position < |wire|
        invariant Valid() && old(position) <= position && unanswered == old(unanswered)
        invariant forall j :: old(position) <= j < position ==> wire[j].Message? && wire[j].id != wanted
      {
        var message := wire[position];
        position := position + 1;
        if message.Undecodable? {
          return None;
        }
        if message.id == wanted {
          unanswered := unanswered - {wanted};
          return if message.failed then None else Some(message);
        }
      }
      result := None;
    }

    /** A response to this request was read, and it was no error. */
    ghost predicate Succeeded(start: nat, end: nat, id: int)
      requires end <= |wire|
    {
      exists j :: start <= j < end && wire[j].Message? && wire[j].id == id && !wire[j].failed
    }

    /** session/new, session/set_model and, with an effort, session/set_config_option. */
    method OpenSession(env: Environment, effort: string) returns (session: Option<string>)
      requires Valid()
      modifies this
      ensures Valid() && old(position) <= position && old(nextId) < nextId
      ensures session.Some? ==> session.value != "" && unanswered == old(unanswered)
      ensures session.Some? ==>
                && nextId == old(nextId) + (if effort != "" then 3 else 2)
                && (forall id :: old(nextId) < id <= nextId ==> Succeeded(old(position), position, id))
                && exists j :: (&& old(position) <= j < position && wire[j].Message? && wire[j].id == old(nextId) + 1
                                && wire[j].sessionId == session.value)
    {
      var sessionRpc := WriteRpc(env.writes(0));
      if !env.writes(0) {
        return None;
      }
      var created := WaitRpcResult(sessionRpc);
      if created.None? || created.value.sessionId == "" {
        return None;
      }
      var modelRpc := WriteRpc(env.writes(1));
      if !env.writes(1) {
        return None;
      }
      var selected := WaitRpcResult(modelRpc);
      if selected.None? {
        return None;
      }
      if effort != "" {
        var effortRpc := WriteRpc(env.writes(2));
        if !env.writes(2) {
          return None;
        }
        var configured := WaitRpcResult(effortRpc);
        if configured.None? {
          return None;
        }
      }
      session := Some(created.value.sessionId);
    }

    /** Sends the completion that the messages call for; false when the caller does not take it. */
    static method Complete(env: Environment, ghost ms: seq<Message>, ghost ended: bool, ghost session: string,
                           ghost prompt: int, ghost requested: string, l: Locals, events: seq<Event>)
      returns (told: bool, sent: seq<Event>)
      requires Settled(ms, session, prompt) && events == ChunkEvents(ms, session, prompt)
      requires FinalFrom(l) == FinalOf(ms, session, prompt, requested)
      ensures Outcome(env, ms, ended, session, prompt, requested, sent)
      ensures told == env.delivers(|events|) && sent == if told then events + [Completed(FinalFrom(l))] else events
      ensures told ==>
                && Told(ms, session, prompt, requested, sent)
                && sent != [] && Terminated(sent) && sent[|sent| - 1].Completed?
      ensures !told ==> forall i :: 0 <= i < |sent| ==> sent[i].Delta?
    {
      hide Chunks, Settled, FinalOf, Outcome, NeverCancelled, FinalFrom;
      told, sent := env.delivers(|events|), events;
      Taken(env, |events|);
      if !told {
        OutcomeCut(env, ms, ended, session, prompt, requested, events);
        return;
      }
      sent := sent + [Completed(FinalFrom(l))];
      OutcomeSettled(env, ms, ended, session, prompt, requested, sent);
    }

    /**
      Takes an update of the session that is the last message read: its text goes to the caller, and the completion if
      nothing more is needed. `left` says that the caller did not take one of them.
    */
    static method Absorb(env: Environment, ghost wire: seq<Message>, ghost start: nat, ghost stop: nat,
                         ghost session: string, ghost prompt: int, ghost requested: string, before: Locals,
                         sent: seq<Event>, u: Update)
      returns (l: Locals, events: seq<Event>, left: bool, completed: bool)
      requires start < stop <= |wire|
      requires Absorbed(Part(wire, start, stop), session, prompt, requested, Updated(before, u), Passed(sent, u))
      ensures left ==>
                && Outcome(env, Part(wire, start, stop), stop == |wire|, session, prompt, requested, events)
                && !MayBeReused(env, wire, stop, session, prompt, events)
      ensures !left && completed ==> Told(Part(wire, start, stop), session, prompt, requested, events)
      ensures !left && !completed ==>
                && Looping(Part(wire, start, stop), session, prompt, requested, l, events)
    {
      hide Outcome, MayBeReused, Part, Settled, Looping, ChunkEvents, FinalOf, FinalFrom, Told, NeverCancelled;
      hide Passed, Terminated;
      ghost var ms := Part(wire, start, stop);
      PassedMeans(sent, u);
      AbsorbedMeans(ms, session, prompt, requested, Updated(before, u), Passed(sent, u));
      l, events, left, completed := before, sent, true, false;
      l := Take(l, u);
      if IsChunk(u) {
        if !env.delivers(|events|) {
          CutExit(env, wire, start, stop, session, prompt, requested, events, Passed(sent, u));
          return;
        }
        events := events + [Delta(u.text)];
      }
      if l.modelDone && l.usage.Some? {
        completed, events := Complete(env, ms, stop == |wire|, session, prompt, requested, l, events);
        if !completed {
          NotReused(env, wire, stop, session, prompt, events);
          return;
        }
      }
      left := false;
    }

    /**
      The message loop of one prompt. `stop` is where the outcome was settled: the events are the session's text
      chunks up to there, and a terminal event follows from the last of these messages, or from the end of the
      output. Without a cancellation there always is a terminal event.
    */
    method PromptLoop(env: Environment, session: string, prompt: nat, requested: string)
      returns (events: seq<Event>, reusable: bool, ghost stop: nat)
      requires Valid()
      modifies this`position, this`unanswered
      ensures Valid() && old(position) <= stop <= position
      ensures Outcome(env, Part(wire, old(position), stop), stop == |wire|, session, prompt, requested, events)
      ensures reusable ==>
                && !env.closed
                && Terminated(events) && events[|events| - 1].Completed?
                && unanswered == old(unanswered) - {prompt}
                && Answered(wire, old(position), position, session, prompt)
      ensures reusable <==> MayBeReused(env, wire, stop, session, prompt, events)
    {
      hide Chunks, LastUsage, LastModel, SeenDone, Concat, Deltas, Drained, Draining, Answered, Disallowed, Unfit, Part;
      hide MayBeReused, Sent, Told;
      hide SessionUpdate, IsChunk, Fatal;
      hide Points, Undecided, Outcome, NeverCancelled, Terminated;
      hide Tracks, Ready, ChunkEvents, FinalOf, Looping, Settled, Ruined, Updated, Passed, FinalFrom, Absorbed;
      LoopStart(wire, position, session, prompt, requested);
      var l := Locals("", requested, None, "", false);
      var completionSent := false;
      events := [];
      stop := position;
      ghost var start := position;
      while position < |wire|
        invariant Valid() && start <= stop <= position && unanswered == old(unanswered)
        invariant !completionSent ==> stop == position
        invariant !completionSent ==> Looping(Part(wire, start, stop), session, prompt, requested, l, events)
        invariant completionSent ==>
                    && Draining(wire, start, stop, position, session, prompt)
                    && Told(Part(wire, start, stop), session, prompt, requested, events)
      {
        var message := wire[position];
        if completionSent {
          OutcomeSettled(env, Part(wire, start, stop), stop == |wire|, session, prompt, requested, events);
          DrainStep(wire, start, stop, position, session, prompt);
          position := position + 1;
          if Answers(message, prompt) {
            unanswered := unanswered - {prompt};
            ReusedAfter(env, wire, stop, position - 1, session, prompt, events);
            return events, !env.closed, stop;
          }
          if Unfit(message, session, prompt) {
            NotReused(env, wire, stop, session, prompt, events);
            return events, false, stop;
          }
          continue;
        }
        NextRead(wire, start, position, session, prompt, requested, l, events);
        position := position + 1;
        stop := position;
        ghost var ms := Part(wire, start, stop);
        if Fatal(message, session, prompt) {
          if Answers(message, prompt) {
            unanswered := unanswered - {prompt};
          }
          FailedExit(env, wire, start, stop, session, prompt, requested, events, env.delivers(|events|));
          events := Sent(events, env.delivers(|events|), Failed);
          return events, false, stop;
        }
        if Answers(message, prompt) {
          unanswered := unanswered - {prompt};
          var told;
          told, events := Complete(env, ms, stop == |wire|, session, prompt, requested, l, events);
          if !told {
            NotReused(env, wire, stop, session, prompt, events);
            return events, false, stop;
          }
          DrainStarts(wire, start, stop, session, prompt, requested, events);
          ReusedAfter(env, wire, stop, stop - 1, session, prompt, events);
          return events, !env.closed, stop;
        }
        var update := SessionUpdate(message, session, prompt);
        if update.None? {
          continue;
        }
        var left;
        l, events, left, completionSent := Absorb(env, wire, start, stop, session, prompt, requested, l, events,
                                                  update.value);
        if left {
          return events, false, stop;
        }
        if completionSent {
          DrainStarts(wire, start, stop, session, prompt, requested, events);
        }
      }
      reusable := false;
      if completionSent {
        OutcomeSettled(env, Part(wire, start, stop), stop == |wire|, session, prompt, requested, events);
        DrainEnds(wire, start, stop, session, prompt);
        NotReused(env, wire, stop, session, prompt, events);
        return;
      }
      LoopingMeans(Part(wire, start, stop), session, prompt, requested, l, events);
      FailedExit(env, wire, start, stop, session, prompt, requested, events,
                 !env.cancelled && env.delivers(|events|));
      events := Sent(events, !env.cancelled && env.delivers(|events|), Failed);
    }

    /** Takes an update into the local variables. */
    static method Take(before: Locals, u: Update) returns (l: Locals)
      ensures l == Updated(before, u)
    {
      l := before;
      if u.modelId != "" {
        l := l.(model := u.modelId);
      }
      if u.kind.MessageChunk? && u.isText && u.text != "" {
        l := l.(output := l.output + u.text);
      }
      if u.kind.StatusUpdate? {
        l := l.(modelDone := l.modelDone || u.modelDone);
        if u.usage.Some? {
          var spent := u.usage.value;
          l := l.(usage := Some((spent.promptTokens, spent.completionTokens)), credit := spent.credit);
        }
      }
    }

    /** What the messages decide, for every place in the output. */
    lemma Decided(env: Environment, start: nat, stop: nat, session: string, prompt: int, requested: string,
                  events: seq<Event>)
      requires start <= stop <= |wire|
      requires Outcome(env, wire[start..stop], stop == |wire|, session, prompt, requested, events)
      ensures forall k: nat :: FailsAt(wire, start, k, session, prompt) ==>
                && (forall f :: Completed(f) !in events)
                && (NeverCancelled(env) ==> events != [] && events[|events| - 1].Failed?)
      ensures forall k: nat :: CompletesAt(wire, start, k, session, prompt) && NeverCancelled(env) ==>
                && events != []
                && events[|events| - 1] == Completed(FinalOf(wire[start..k], session, prompt, requested))
    {
      hide Outcome, FailsAt, FinalOf, NeverCancelled;
      forall k: nat | FailsAt(wire, start, k, session, prompt)
        ensures forall f :: Completed(f) !in events
        ensures NeverCancelled(env) ==> events != [] && events[|events| - 1].Failed?
      {
        BadMessageFails(env, wire, start, stop, k, session, prompt, requested, events);
      }
      forall k: nat | CompletesAt(wire, start, k, session, prompt) && NeverCancelled(env)
        ensures && events != []
                && events[|events| - 1] == Completed(FinalOf(wire[start..k], session, prompt, requested))
      {
        GoodRunCompletes(env, wire, start, stop, k, session, prompt, requested, events);
      }
    }

    /**
      One request. True means the worker may serve another one. `session` is the session the prompt was written to, if
      it came to that, and `start` is where the reading of its messages began.
    */
    method Run(env: Environment, effort: string, requested: string)
      returns (events: seq<Event>, reusable: bool, ghost session: Option<string>, ghost start: nat)
      requires Valid()
      modifies this
      ensures Valid() && old(position) <= start <= position && old(nextId) <= nextId
      ensures WellFormed(events)
      ensures NeverCancelled(env) ==> Terminated(events)
      ensures forall f :: Completed(f) in events ==>
                && events[..|events| - 1] == Deltas(Texts(events)) && f.outputText == Concat(Texts(events))
      ensures reusable ==>
                && Terminated(events) && events[|events| - 1].Completed?
                && unanswered == old(unanswered)
                && old(position) < position && Answers(wire[position - 1], nextId)
                && session.Some? && AllAllowed(wire, start, position, session.value, nextId)
      ensures session.None? ==> !reusable && (events == [Failed] || events == [])
      ensures session.Some? ==>
                forall k: nat :: FailsAt(wire, start, k, session.value, nextId) ==>
                  && (forall f :: Completed(f) !in events)
                  && (NeverCancelled(env) ==> events != [] && events[|events| - 1].Failed?)
      ensures session.Some? ==>
                forall k: nat :: CompletesAt(wire, start, k, session.value, nextId) && NeverCancelled(env) ==>
                  && events != []
                  && events[|events| - 1] == Completed(FinalOf(wire[start..k], session.value, nextId, requested))
    {
      hide Chunks, LastUsage, LastModel, SeenDone, Concat, Deltas, Points, Undecided, Fatal, Texts, Settled, Ruined;
      hide Disallowed, FailsAt, AllAllowed, Drained;
      session, start := None, position;
      if !env.directoryMade {
        events, reusable := if env.delivers(0) then [Failed] else [], false;
        return;
      }
      var created := OpenSession(env, effort);
      start := position;
      if created.None? {
        events, reusable := if env.delivers(0) then [Failed] else [], false;
        return;
      }
      var prompt := WriteRpc(env.writes(3));
      if !env.writes(3) {
        events, reusable := if env.delivers(0) then [Failed] else [], false;
        return;
      }
      ghost var stop;
      session := created;
      events, reusable, stop := PromptLoop(env, created.value, prompt, requested);
      TextsOfDeltas(Chunks(wire[start..stop], created.value, prompt), events);
      Decided(env, start, stop, created.value, prompt, requested, events);
    }
  }

  /** The texts of the delta events, in order. */
  function Texts(events: seq<Event>): seq<string> {
    if events == [] then [] else
    Texts(events[..|events| - 1]) + match events[|events| - 1]
                                    case Delta(text) => [text]
                                    case _ => []
  }

  lemma {:induction false} TextsOfDeltas(parts: seq<string>, events: seq<Event>)
    ensures Texts(Deltas(parts)) == parts
    ensures forall e: Event | !e.Delta? :: Texts(Deltas(parts) + [e]) == parts
    decreases |parts|
  {
    if parts != [] {
      var init := parts[..|parts| - 1];
      assert parts == init + [parts[|parts| - 1]];
      ConcatExtended(init, parts[|parts| - 1]);
      TextsOfDeltas(init, events);
      assert Deltas(parts)[..|parts| - 1] == Deltas(init);
    }
    forall e: Event | !e.Delta?
      ensures Texts(Deltas(parts) + [e]) == parts
    {
      assert (Deltas(parts) + [e])[..|parts|] == Deltas(parts);
    }
  }
}
