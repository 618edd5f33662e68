/**
 * The `/pw` conversation of `pw_handler.py`: token, then batch link, then
 * a `&`-separated list of subject ids, one exported file per subject.
 */
module PwHandler {
  import opened Wrappers
  import opened Text
  import opened BatchId
  import opened Pagination
  import opened Content

  // ---------------------------------------------------------------------
  // Subject ids and subject names
  // ---------------------------------------------------------------------

  /** The index of the first subject whose `_id` is `id`. */
  function FirstWithId(subjects: seq<Subject>, id: string): (r: Option<nat>)
    ensures r.Some? ==> r.value < |subjects| && subjects[r.value].id == id
    ensures r.Some? ==> forall j | 0 <= j < r.value :: subjects[j].id != id
    ensures r.None? ==> forall j | 0 <= j < |subjects| :: subjects[j].id != id
  {
    if subjects == [] then None
    else if subjects[0].id == id then Some(0)
    else
      match FirstWithId(subjects[1..], id)
      case Some(i) => Some(i + 1)
      case None => None
  }

  /**
   * The name under which a requested piece is exported: the `subject` of the
   * first subject in list order whose `_id` is the stripped piece, otherwise
   * `Subject_` followed by the piece as typed, unstripped.
   */
  function SubjectName(piece: string, subjects: seq<Subject>): (name: string)
    ensures forall j | 0 <= j < |subjects| && subjects[j].id == Strip(piece)
                       && (forall i | 0 <= i < j :: subjects[i].id != Strip(piece))
              :: name == subjects[j].name
    ensures (forall j | 0 <= j < |subjects| :: subjects[j].id != Strip(piece)) ==> name == "Subject_" + piece
  {
    match FirstWithId(subjects, Strip(piece))
    case Some(i) => subjects[i].name
    case None => "Subject_" + piece
  }

  /**
   * `text.strip().split("&")`: one piece more than there are `&`, no piece
   * holding an `&`, and joined back with `&` they give the stripped text.
   */
  function ParseSubjectIds(text: string): (pieces: seq<string>)
    ensures |pieces| == Count(Strip(text), '&') + 1
    ensures forall k | 0 <= k < |pieces| :: '&' !in pieces[k]
    ensures Join(pieces, '&') == Strip(text)
  {
    SplitCount(Strip(text), '&');
    SplitPiecesFree(Strip(text), '&');
    JoinSplit(Strip(text), '&');
    Split(Strip(text), '&')
  }

  // ---------------------------------------------------------------------
  // Export of one subject
  // ---------------------------------------------------------------------

  /**
   * `save_batch_contents`: the file `<batch>_<subject>.txt` holds one line
   * `title: url` for each item whose raw url is non-empty, in input order,
   * with the url stripped and the title defaulting to `Untitled`.
   */
  method SaveBatchContents(batchName: string, subjectName: string, subjectData: seq<ContentItem>)
    returns (file: ExportFile)
    ensures file.name == batchName + "_" + subjectName + ".txt"
    ensures file.content == Lines(Bodies(Filter(subjectData, HasUrl)))
  {
    var content := "";
    for i := 0 to |subjectData|
      invariant content == Lines(Bodies(Filter(subjectData[..i], HasUrl)))
    {
      var data := subjectData[i];
      var title := Title(data);
      var link := RawUrl(data);
      ExportStepAt(subjectData, i, HasUrl);
      if link != "" {
        var line := title + ": " + Strip(link) + "\n";
        assert line == Body(data) + "\n";
        content := content + line;
      }
    }
    assert subjectData[..|subjectData|] == subjectData;
    file := ExportFile(batchName + "_" + subjectName + ".txt", content);
  }

  // ---------------------------------------------------------------------
  // Processing the requested subject ids
  // ---------------------------------------------------------------------

  /** What became of one requested piece. */
  datatype PieceResult =
    | NoContent(subjectId: string)                    // "No content found for subject ID ..."
    | Exported(file: ExportFile, delivery: Delivery)  // a file was written and sent

  /**
   * One piece: all its pages are fetched under its stripped id; nothing
   * found means a notice, anything found means a file named after the batch
   * id and the resolved subject name.
   */
  function PieceOutcome(srv: Server, batchId: string, token: string, subjects: seq<Subject>,
                        piece: string, sendFailed: bool): PieceResult
  {
    var id := Strip(piece);
    var all := Flatten(FilledPages(Pages(srv, batchId, id, token)));
    if all == [] then NoContent(id)
    else
      Exported(ExportFile(batchId + "_" + SubjectName(piece, subjects) + ".txt",
                          Lines(Bodies(Filter(all, HasUrl)))),
               if sendFailed then SendFailed else Sent)
  }

  /**
   * The result of every piece of the request, in order; the piece at index
   * `k` failed to send to the user when `k in sendFails`.
   */
  function Outcomes(text: string, srv: Server, batchId: string, token: string,
                    subjects: seq<Subject>, sendFails: set<nat>): (r: seq<PieceResult>)
    ensures |r| == Count(Strip(text), '&') + 1
  {
    var ids := ParseSubjectIds(text);
    seq(|ids|, k requires 0 <= k < |ids| => PieceOutcome(srv, batchId, token, subjects, ids[k], k in sendFails))
  }

  /** A failed send changes only the delivery of its own piece; every other piece is untouched. */
  lemma SendFailureIsLocal(text: string, srv: Server, batchId: string, token: string,
                           subjects: seq<Subject>, sendFails: set<nat>, k: nat)
    requires k < Count(Strip(text), '&') + 1
    ensures var before := Outcomes(text, srv, batchId, token, subjects, sendFails - {k});
            var after := Outcomes(text, srv, batchId, token, subjects, sendFails + {k});
            |before| == |after|
            && (forall j | 0 <= j < |after| && j != k :: after[j] == before[j])
            && (after[k].NoContent? <==> before[k].NoContent?)
            && (after[k].Exported? ==> after[k].file == before[k].file && after[k].delivery == SendFailed)
  {
    var ids := ParseSubjectIds(text);
    var before := Outcomes(text, srv, batchId, token, subjects, sendFails - {k});
    var after := Outcomes(text, srv, batchId, token, subjects, sendFails + {k});
    forall j | 0 <= j < |after| && j != k
      ensures after[j] == before[j]
    {
      assert (j in sendFails - {k}) == (j in sendFails + {k});
    }
    assert after[k] == PieceOutcome(srv, batchId, token, subjects, ids[k], true);
    assert before[k] == PieceOutcome(srv, batchId, token, subjects, ids[k], false);
  }

  /**
   * End to end: asking for `<id1>&<id2>`, two subjects with content, gives
   * two files in that order, each holding only its own subject's items.
   */
  lemma TwoSubjectsTwoFiles(id1: string, id2: string, srv: Server, batchId: string, token: string,
                            subjects: seq<Subject>)
    requires '&' !in id1 && '&' !in id2
    requires id1 != [] && !IsSpace(id1[0]) && !IsSpace(id1[|id1| - 1])
    requires id2 != [] && !IsSpace(id2[0]) && !IsSpace(id2[|id2| - 1])
    requires Flatten(FilledPages(Pages(srv, batchId, id1, token))) != []
    requires Flatten(FilledPages(Pages(srv, batchId, id2, token))) != []
    ensures Outcomes(id1 + "&" + id2, srv, batchId, token, subjects, {}) ==
      [ Exported(ExportFile(batchId + "_" + SubjectName(id1, subjects) + ".txt",
                            Lines(Bodies(Filter(Flatten(FilledPages(Pages(srv, batchId, id1, token))), HasUrl)))), Sent),
        Exported(ExportFile(batchId + "_" + SubjectName(id2, subjects) + ".txt",
                            Lines(Bodies(Filter(Flatten(FilledPages(Pages(srv, batchId, id2, token))), HasUrl)))), Sent) ]
  {
    ParseTwoIds(id1, id2);
    StripUnchanged(id1);
    StripUnchanged(id2);
  }

  /** `"<id1>&<id2>"` parses to the two ids. */
  lemma ParseTwoIds(id1: string, id2: string)
    requires '&' !in id1 && '&' !in id2
    requires id1 != [] && id2 != [] && !IsSpace(id1[0]) && !IsSpace(id2[|id2| - 1])
    ensures ParseSubjectIds(id1 + "&" + id2) == [id1, id2]
  {
    var text := id1 + "&" + id2;
    assert text[0] == id1[0];
    assert text[|text| - 1] == id2[|id2| - 1];
    StripUnchanged(text);
    SplitAfterPiece(id1, '&', id2);
    SplitNoSep(id2, '&');
  }

  /**
   * The body of the `for subject_id in subject_ids` loop: fetch every page
   * of the stripped id, then either the notice or the file, then its send.
   */
  method ProcessPiece(subjectId: string, srv: Server, batchId: string, token: string,
                      subjects: seq<Subject>, sendFailed: bool) returns (result: PieceResult)
    ensures result == PieceOutcome(srv, batchId, token, subjects, subjectId, sendFailed)
  {
    var allData, _ := Aggregate(Pages(srv, batchId, Strip(subjectId), token));
    if allData != [] {
      var subjectName := SubjectName(subjectId, subjects);
      var file := SaveBatchContents(batchId, subjectName, allData);
      if sendFailed {
        result := Exported(file, SendFailed);
      } else {
        result := Exported(file, Sent);
      }
    } else {
      result := NoContent(Strip(subjectId));
    }
  }

  /** `handle_subject_ids` from the split: the stripped, `&`-split request, then every piece. */
  method ProcessRequest(text: string, srv: Server, batchId: string, token: string,
                        subjects: seq<Subject>, sendFails: set<nat>) returns (results: seq<PieceResult>)
    ensures results == Outcomes(text, srv, batchId, token, subjects, sendFails)
  {
    var subjectIds := ParseSubjectIds(text);
    results := ProcessPieces(subjectIds, srv, batchId, token, subjects, sendFails);
    OutcomesOf(text, srv, batchId, token, subjects, sendFails, results);
  }

  /**
   * The `for subject_id in subject_ids` loop: every piece in order, each
   * with its own result, a failed send not stopping the others.
   */
  method ProcessPieces(subjectIds: seq<string>, srv: Server, batchId: string, token: string,
                       subjects: seq<Subject>, sendFails: set<nat>) returns (results: seq<PieceResult>)
    ensures |results| == |subjectIds|
    ensures forall j | 0 <= j < |subjectIds| ::
      results[j] == PieceOutcome(srv, batchId, token, subjects, subjectIds[j], j in sendFails)
  {
    results := [];
    for k := 0 to |subjectIds|
      invariant |results| == k
      invariant forall j | 0 <= j < k ::
        results[j] == PieceOutcome(srv, batchId, token, subjects, subjectIds[j], j in sendFails)
    {
      var result := ProcessPiece(subjectIds[k], srv, batchId, token, subjects, k in sendFails);
      ghost var done := results;
      results := results + [result];
      forall j | 0 <= j < k + 1
        ensures results[j] == PieceOutcome(srv, batchId, token, subjects, subjectIds[j], j in sendFails)
      {
        if j < k {
          assert results[j] == done[j];
        }
      }
    }
  }

  /** A sequence with one piece's outcome at each index of the parsed request is `Outcomes`. */
  lemma OutcomesOf(text: string, srv: Server, batchId: string, token: string,
                   subjects: seq<Subject>, sendFails: set<nat>, results: seq<PieceResult>)
    requires |results| == |ParseSubjectIds(text)|
    requires forall j | 0 <= j < |results| ::
      results[j] == PieceOutcome(srv, batchId, token, subjects, ParseSubjectIds(text)[j], j in sendFails)
    ensures results == Outcomes(text, srv, batchId, token, subjects, sendFails)
  {
  }

  // ---------------------------------------------------------------------
  // The conversation
  // ---------------------------------------------------------------------

  /** `AUTH_CODE`, `BATCH_LINK`, `SUBJECT_IDS`, and `END` for "no conversation". */
  datatype State = End | AuthCode | BatchLink | SubjectIds

  /** `context.user_data`: the three keys the handlers store. */
  datatype UserData = UserData(authCode: Option<string>, batchId: Option<string>, subjects: Option<seq<Subject>>)

  datatype Conversation = Conversation(state: State, data: UserData)

  /** An update: the `/pw` command, or a text message that is not a command. */
  datatype Event = PwCommand | Message(text: string)

  /**
   * What the outside world answers during one update: the server, whether
   * `get_subjects` raises, and which pieces fail to send to the user.
   */
  datatype World = World(srv: Server, detailsRaise: bool, sendFails: set<nat>)

  const Initial := Conversation(End, UserData(None, None, None))

  /** `handle_batch_link`: the id is stored first; any failure ends the conversation. */
  function BatchLinkStep(data: UserData, text: string, srv: Server, detailsRaise: bool): Conversation
  {
    var id := ExtractBatchId(Strip(text));
    var stored := data.(batchId := Some(id));
    if data.authCode.None? || detailsRaise then Conversation(End, stored)
    else
      var found := GetSubjects(srv, id, data.authCode.value);
      if found == [] then Conversation(End, stored)
      else Conversation(SubjectIds, stored.(subjects := Some(found)))
  }

  /**
   * One update as the registered handler table dispatches it: `/pw` starts a
   * conversation when none is active, and a message goes to the handler of
   * the current state. Updates no handler accepts change nothing.
   */
  function Step(c: Conversation, ev: Event, w: World): Conversation
  {
    match ev
    case PwCommand => if c.state == End then Conversation(AuthCode, c.data) else c
    case Message(text) =>
      match c.state
      case End => c
      case AuthCode => Conversation(BatchLink, c.data.(authCode := Some(Strip(text))))
      case BatchLink => BatchLinkStep(c.data, text, w.srv, w.detailsRaise)
      case SubjectIds => Conversation(End, c.data)
  }

  /** The updates `steps`, one after the other. */
  function Run(c: Conversation, steps: seq<(Event, World)>): Conversation
    decreases |steps|
  {
    if steps == [] then c else Run(Step(c, steps[0].0, steps[0].1), steps[1..])
  }

  /** The keys each state's handler reads are stored. */
  predicate Consistent(c: Conversation)
  {
    (c.state == BatchLink ==> c.data.authCode.Some?)
    && (c.state == SubjectIds ==>
          c.data.authCode.Some? && c.data.batchId.Some? && c.data.subjects.Some? && c.data.subjects.value != [])
  }

  lemma StepConsistent(c: Conversation, ev: Event, w: World)
    requires Consistent(c)
    ensures Consistent(Step(c, ev, w))
  {
  }

  /**
   * Whatever the updates, every conversation reachable from the start keeps
   * the keys its handlers read; in particular `handle_subject_ids` never
   * misses `auth_code`, `batch_id` or `subjects`.
   */
  lemma {:induction false} RunConsistent(c: Conversation, steps: seq<(Event, World)>)
    requires Consistent(c)
    ensures Consistent(Run(c, steps))
    decreases |steps|
  {
    if steps != [] {
      StepConsistent(c, steps[0].0, steps[0].1);
      RunConsistent(Step(c, steps[0].0, steps[0].1), steps[1..]);
    }
  }

  lemma ReachableConsistent(steps: seq<(Event, World)>)
    ensures Consistent(Run(Initial, steps))
  {
    RunConsistent(Initial, steps);
  }

  /**
   * The batch-link transition: the id extracted from the raw message is
   * stored whatever happens; the conversation moves on to the subject ids
   * exactly when `get_subjects` neither raises nor returns nothing, and
   * then stores the subjects; otherwise it ends with the subjects untouched.
   */
  lemma BatchLinkTransition(c: Conversation, text: string, w: World)
    requires c.state == BatchLink && Consistent(c)
    ensures var r := Step(c, Message(text), w);
            var found := GetSubjects(w.srv, ExtractBatchId(text), c.data.authCode.value);
            r.data.batchId == Some(ExtractBatchId(text))
            && r.data.authCode == c.data.authCode
            && (r.state == SubjectIds <==> !w.detailsRaise && found != [])
            && (r.state == SubjectIds ==> r.data.subjects == Some(found))
            && (r.state != SubjectIds ==> r.state == End && r.data.subjects == c.data.subjects)
  {
    ExtractIgnoresSurroundingSpace(text);
  }

  /** Distance of a state from `END` in messages. */
  function Rank(s: State): nat
  {
    match s
    case End => 0
    case SubjectIds => 1
    case BatchLink => 2
    case AuthCode => 3
  }

  predicate AllMessages(steps: seq<(Event, World)>)
  {
    forall k | 0 <= k < |steps| :: steps[k].0.Message?
  }

  /** Messages only lower the rank: a conversation ends after at most three messages. */
  lemma {:induction false} MessagesEndConversation(c: Conversation, steps: seq<(Event, World)>)
    requires AllMessages(steps) && |steps| >= Rank(c.state)
    ensures Run(c, steps).state == End
    decreases |steps|
  {
    if steps != [] {
      var next := Step(c, steps[0].0, steps[0].1);
      assert Rank(next.state) + 1 <= Rank(c.state) || next.state == End;
      assert AllMessages(steps[1..]) by {
        forall k | 0 <= k < |steps[1..]| ensures steps[1..][k].0.Message? {
          assert steps[1..][k] == steps[k + 1];
        }
      }
      MessagesEndConversation(next, steps[1..]);
    }
  }

  lemma ThreeMessagesEnd(c: Conversation, steps: seq<(Event, World)>)
    requires AllMessages(steps) && |steps| >= 3
    ensures Run(c, steps).state == End
  {
    MessagesEndConversation(c, steps);
  }

  /**
   * The per-user session: the conversation state the handler table keeps,
   * and the `user_data` fields the handlers update in place.
   */
  class Session {
    var state: State
    var authCode: Option<string>
    var batchId: Option<string>
    var subjects: Option<seq<Subject>>

    function Data(): UserData
      reads this
    {
      UserData(authCode, batchId, subjects)
    }

    function Snapshot(): Conversation
      reads this
    {
      Conversation(state, Data())
    }

    constructor ()
      ensures Snapshot() == Initial
    {
      state := End;
      authCode, batchId, subjects := None, None, None;
    }

    /** `pw_start`. */
    method PwStart() returns (next: State)
      ensures next == AuthCode
    {
      next := AuthCode;
    }

    /** `handle_auth_code`: the stripped message becomes the token. */
    method HandleAuthCode(text: string) returns (next: State)
      modifies this
      ensures next == BatchLink
      ensures authCode == Some(Strip(text))
      ensures batchId == old(batchId) && subjects == old(subjects) && state == old(state)
    {
      authCode := Some(Strip(text));
      next := BatchLink;
    }

    /** `handle_batch_link`. */
    method HandleBatchLink(text: string, srv: Server, detailsRaise: bool) returns (next: State)
      modifies this
      ensures Conversation(next, Data()) == BatchLinkStep(old(Data()), text, srv, detailsRaise)
      ensures state == old(state)
    {
      var batchUrl := Strip(text);
      var id := ExtractBatchId(batchUrl);
      batchId := Some(id);
      if authCode.None? || detailsRaise {
        return End;
      }
      var found := GetSubjects(srv, id, authCode.value);
      if found == [] {
        return End;
      }
      subjects := Some(found);
      return SubjectIds;
    }

    /** `handle_subject_ids`: the stored keys are read, the request is processed, then `END`. */
    method HandleSubjectIds(text: string, srv: Server, sendFails: set<nat>)
      returns (next: State, results: seq<PieceResult>)
      requires authCode.Some? && batchId.Some? && subjects.Some?
      ensures next == End
      ensures results == Outcomes(text, srv, batchId.value, authCode.value, subjects.value, sendFails)
    {
      var token, batch, known := authCode.value, batchId.value, subjects.value;
      results := ProcessRequest(text, srv, batch, token, known, sendFails);
      next := End;
    }

    /** One update, dispatched by the current state as the handler table registers it. */
    method Receive(ev: Event, w: World) returns (results: seq<PieceResult>)
      requires Consistent(Snapshot())
      modifies this
      ensures Snapshot() == Step(old(Snapshot()), ev, w)
      ensures Consistent(Snapshot())
      ensures results ==
        if old(state) == SubjectIds && ev.Message?
        then Outcomes(ev.text, w.srv, old(batchId).value, old(authCode).value, old(subjects).value, w.sendFails)
        else []
    {
      StepConsistent(Snapshot(), ev, w);
      results := [];
      match ev
      case PwCommand =>
        if state == End {
          var next := PwStart();
          state := next;
        }
      case Message(text) =>
        match state
        case End =>
        case AuthCode =>
          var next := HandleAuthCode(text);
          state := next;
        case BatchLink =>
          var next := HandleBatchLink(text, w.srv, w.detailsRaise);
          state := next;
        case SubjectIds =>
          var next;
          next, results := HandleSubjectIds(text, w.srv, w.sendFails);
          state := next;
    }
  }
}
