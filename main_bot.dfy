/**
 * The `/pw` conversation of `main.py`: token, then batch link, after which
 * every subject of the batch is exported into one file.
 */
module FullBatchBot {
  import opened Wrappers
  import opened Text
  import opened BatchId
  import opened Pagination
  import opened Content

  // ---------------------------------------------------------------------
  // Export of the whole batch
  // ---------------------------------------------------------------------

  /** The line `==== NAME ====` between two newlines that opens a subject. */
  function Header(name: string): string
  {
    "\n==== " + Upper(name) + " ====\n"
  }

  /** The items of one subject: every page before its first empty page. */
  function SubjectItems(srv: Server, batchId: string, token: string, subject: Subject): seq<ContentItem>
  {
    Flatten(FilledPages(Pages(srv, batchId, subject.id, token)))
  }

  /**
   * One subject's part of the file: its header, written even when the
   * subject has no content, then one line per item whose stripped url is
   * non-empty.
   */
  function Section(srv: Server, batchId: string, token: string, subject: Subject): string
  {
    Header(subject.name) + Lines(Bodies(Filter(SubjectItems(srv, batchId, token, subject), HasStrippedUrl)))
  }

  /** A section opens with its header, and is only the header when the subject has no content. */
  lemma SectionHeader(srv: Server, batchId: string, token: string, subject: Subject)
    ensures var r := Section(srv, batchId, token, subject);
            |Header(subject.name)| <= |r| && r[..|Header(subject.name)|] == Header(subject.name)
            && (SubjectItems(srv, batchId, token, subject) == [] ==> r == Header(subject.name))
  {
  }

  /** The concatenated `section` of every subject, in list order. */
  function Concat(subjects: seq<Subject>, section: Subject -> string): string
  {
    if subjects == [] then []
    else Concat(subjects[..|subjects| - 1], section) + section(subjects[|subjects| - 1])
  }

  lemma {:induction false} ConcatAppend(a: seq<Subject>, b: seq<Subject>, section: Subject -> string)
    ensures Concat(a + b, section) == Concat(a, section) + Concat(b, section)
  {
    if b == [] {
      assert a + b == a;
    } else {
      var init, last := b[..|b| - 1], section(b[|b| - 1]);
      calc {
        Concat(a + b, section);
        { assert (a + b)[..|a + b| - 1] == a + init; assert (a + b)[|a + b| - 1] == b[|b| - 1]; }
        Concat(a + init, section) + last;
        { ConcatAppend(a, init, section); }
        (Concat(a, section) + Concat(init, section)) + last;
        { AppendAssoc(Concat(a, section), Concat(init, section), last); }
        Concat(a, section) + Concat(b, section);
      }
    }
  }

  /** The whole file: the section of every subject, in list order. */
  function FullBatchText(srv: Server, batchId: string, token: string, subjects: seq<Subject>): string
  {
    Concat(subjects, (s: Subject) => Section(srv, batchId, token, s))
  }

  /** The file for `a + b` is that for `a`, then that for `b`: subjects appear in list order. */
  lemma FullBatchTextAppend(srv: Server, batchId: string, token: string, a: seq<Subject>, b: seq<Subject>)
    ensures FullBatchText(srv, batchId, token, a + b)
         == FullBatchText(srv, batchId, token, a) + FullBatchText(srv, batchId, token, b)
  {
    ConcatAppend(a, b, (s: Subject) => Section(srv, batchId, token, s));
  }

  /** Each subject contributes its section and nothing else to the file. */
  lemma SectionOfSubject(srv: Server, batchId: string, token: string, subjects: seq<Subject>, k: nat)
    requires k < |subjects|
    ensures FullBatchText(srv, batchId, token, subjects)
         == FullBatchText(srv, batchId, token, subjects[..k])
            + Section(srv, batchId, token, subjects[k])
            + FullBatchText(srv, batchId, token, subjects[k + 1..])
  {
    assert subjects == subjects[..k] + [subjects[k]] + subjects[k + 1..];
    FullBatchTextAppend(srv, batchId, token, subjects[..k] + [subjects[k]], subjects[k + 1..]);
    FullBatchTextAppend(srv, batchId, token, subjects[..k], [subjects[k]]);
    assert [subjects[k]][..0] == [];
  }

  /**
   * `save_full_batch`: writes the `==== NAME ====` header of each subject,
   * then reads its pages 1, 2, ... up to the first empty one and writes
   * `title: url` for each item whose url is non-empty once stripped.
   */
  method SaveFullBatch(batchId: string, subjects: seq<Subject>, token: string, srv: Server)
    returns (file: ExportFile)
    ensures file.name == batchId + "_full_batch.txt"
    ensures file.content == FullBatchText(srv, batchId, token, subjects)
  {
    var content := "";
    for s := 0 to |subjects|
      invariant content == FullBatchText(srv, batchId, token, subjects[..s])
    {
      var written := WriteSubject(batchId, subjects[s], token, srv);
      content := content + written;
      FullBatchStep(srv, batchId, token, subjects, s);
    }
    assert subjects[..|subjects|] == subjects;
    file := ExportFile(batchId + "_full_batch.txt", content);
  }

  /**
   * The body of the `for subject in subjects` loop of `save_full_batch`:
   * the header, then pages 1, 2, ... up to the first empty one.
   */
  method WriteSubject(batchId: string, subject: Subject, token: string, srv: Server)
    returns (content: string)
    ensures content == Section(srv, batchId, token, subject)
  {
    var subjectName := subject.name;
    var subjectId := subject.id;
    var header := Header(subjectName);
    ghost var filled := FilledPages(Pages(srv, batchId, subjectId, token));
    var lines := "";
    var page: nat := 1;
    while true
      invariant 1 <= page <= |filled| + 1
      invariant lines == PagesText(filled[..page - 1])
      decreases |filled| + 1 - page
    {
      var items := GetBatchContents(srv, batchId, subjectId, page, token);
      PageRead(Pages(srv, batchId, subjectId, token), page);
      if items == [] {
        break;
      }
      var written := WritePage(items);
      PageStep(filled, page, items);
      lines := lines + written;
      page := page + 1;
    }
    content := header + lines;
    SectionDone(srv, batchId, token, subject, content);
  }

  /**
   * The `for item in content` loop of `save_full_batch`: the text written
   * for one page, one `title: url` line per item whose stripped url is
   * non-empty, in page order.
   */
  method WritePage(items: seq<ContentItem>) returns (written: string)
    ensures written == Lines(Bodies(Filter(items, HasStrippedUrl)))
  {
    written := "";
    for i := 0 to |items|
      invariant written == Lines(Bodies(Filter(items[..i], HasStrippedUrl)))
    {
      var item := items[i];
      var title := Title(item);
      var link := Strip(RawUrl(item));
      ExportStepAt(items, i, HasStrippedUrl);
      if link != "" {
        written := written + (title + ": " + link + "\n");
      }
    }
    assert items[..|items|] == items;
  }

  /** After the last page, the subject's text is its section. */
  lemma SectionDone(srv: Server, batchId: string, token: string, subject: Subject, content: string)
    requires var filled := FilledPages(Pages(srv, batchId, subject.id, token));
             content == Header(subject.name) + PagesText(filled[..|filled|])
    ensures content == Section(srv, batchId, token, subject)
  {
    var filled := FilledPages(Pages(srv, batchId, subject.id, token));
    assert filled[..|filled|] == filled;
  }

  lemma FullBatchStep(srv: Server, batchId: string, token: string, subjects: seq<Subject>, s: nat)
    requires s < |subjects|
    ensures FullBatchText(srv, batchId, token, subjects[..s + 1])
         == FullBatchText(srv, batchId, token, subjects[..s]) + Section(srv, batchId, token, subjects[s])
  {
    assert subjects[..s + 1][..s] == subjects[..s];
  }

  /** The lines written for the given pages, in page order. */
  function PagesText(pages: seq<seq<ContentItem>>): string
  {
    Lines(Bodies(Filter(Flatten(pages), HasStrippedUrl)))
  }

  /** Writing one more page's items extends the subject's text by their lines. */
  lemma PageStep(filled: seq<seq<ContentItem>>, page: nat, items: seq<ContentItem>)
    requires 1 <= page <= |filled| && filled[page - 1] == items
    ensures PagesText(filled[..page]) == PagesText(filled[..page - 1]) + Lines(Bodies(Filter(items, HasStrippedUrl)))
  {
    assert filled[..page] == filled[..page - 1] + [items];
    FlattenAppend(filled[..page - 1], [items]);
    assert Flatten([items]) == items by {
      assert [items][..0] == [];
    }
    ExportAppend(Flatten(filled[..page - 1]), items, HasStrippedUrl);
  }

  // ---------------------------------------------------------------------
  // The conversation
  // ---------------------------------------------------------------------

  /** `AUTH_CODE`, `BATCH_LINK`, and `END` for "no conversation". */
  datatype State = End | AuthCode | BatchLink

  /** `context.user_data`: only the token is stored. */
  datatype Conversation = Conversation(state: State, authCode: Option<string>)

  /** An update: the `/pw` command, or a text message that is not a command. */
  datatype Event = PwCommand | Message(text: string)

  /**
   * What the outside world answers during one update: the server, whether
   * `get_subjects` raises, and whether sending the file to the user raises.
   */
  datatype World = World(srv: Server, detailsRaise: bool, sendFails: bool)

  /** What `handle_batch_link` answers. */
  datatype BatchReply =
    | NoSubjects                                       // "No subjects found or token is invalid."
    | Failed                                           // "Error occurred. Check token or URL."
    | Delivered(file: ExportFile, delivery: Delivery)  // the file; on a failed send, the error reply

  const Initial := Conversation(End, None)

  /** `handle_batch_link`: the full-batch file, or why there is none. */
  function BatchLinkReply(authCode: Option<string>, text: string, w: World): BatchReply
  {
    var id := ExtractBatchId(Strip(text));
    if authCode.None? || w.detailsRaise then Failed
    else
      var subjects := GetSubjects(w.srv, id, authCode.value);
      if subjects == [] then NoSubjects
      else
        Delivered(ExportFile(id + "_full_batch.txt", FullBatchText(w.srv, id, authCode.value, subjects)),
                  if w.sendFails then SendFailed else Sent)
  }

  /**
   * The batch-link reply in terms of the raw message: a file exactly when
   * the token is known, `get_subjects` does not raise and finds subjects;
   * the file is `<batch id>_full_batch.txt` with one section per subject.
   */
  lemma BatchLinkOutcome(authCode: Option<string>, text: string, w: World)
    requires authCode.Some?
    ensures var id := ExtractBatchId(text);
            var subjects := GetSubjects(w.srv, id, authCode.value);
            var reply := BatchLinkReply(authCode, text, w);
            (reply.Delivered? <==> !w.detailsRaise && subjects != [])
            && (reply.NoSubjects? <==> !w.detailsRaise && subjects == [])
            && (reply.Delivered? ==>
                  reply.file.name == id + "_full_batch.txt"
                  && reply.file.content == FullBatchText(w.srv, id, authCode.value, subjects))
  {
    ExtractIgnoresSurroundingSpace(text);
  }

  /** One update as the registered handler table dispatches it. */
  function Step(c: Conversation, ev: Event): Conversation
  {
    match ev
    case PwCommand => if c.state == End then c.(state := AuthCode) else c
    case Message(text) =>
      match c.state
      case End => c
      case AuthCode => Conversation(BatchLink, Some(Strip(text)))
      case BatchLink => c.(state := End)
  }

  function Run(c: Conversation, events: seq<Event>): Conversation
    decreases |events|
  {
    if events == [] then c else Run(Step(c, events[0]), events[1..])
  }

  /** In `BATCH_LINK` the token its handler reads is stored. */
  predicate Consistent(c: Conversation)
  {
    c.state == BatchLink ==> c.authCode.Some?
  }

  /** Every conversation reachable from the start keeps the token its handler reads. */
  lemma {:induction false} RunConsistent(c: Conversation, events: seq<Event>)
    requires Consistent(c)
    ensures Consistent(Run(c, events))
    decreases |events|
  {
    if events != [] {
      RunConsistent(Step(c, events[0]), events[1..]);
    }
  }

  /** Distance of a state from `END` in messages. */
  function Rank(s: State): nat
  {
    match s
    case End => 0
    case BatchLink => 1
    case AuthCode => 2
  }

  predicate AllMessages(events: seq<Event>)
  {
    forall k | 0 <= k < |events| :: events[k].Message?
  }

  /** `BATCH_LINK` always ends the conversation: after at most two messages it is over. */
  lemma {:induction false} MessagesEndConversation(c: Conversation, events: seq<Event>)
    requires AllMessages(events) && |events| >= Rank(c.state)
    ensures Run(c, events).state == End
    decreases |events|
  {
    if events != [] {
      assert AllMessages(events[1..]) by {
        forall k | 0 <= k < |events[1..]| ensures events[1..][k].Message? {
          assert events[1..][k] == events[k + 1];
        }
      }
      MessagesEndConversation(Step(c, events[0]), events[1..]);
    }
  }

  /** The per-user session: the conversation state and the stored token. */
  class Session {
    var state: State
    var authCode: Option<string>

    function Snapshot(): Conversation
      reads this
    {
      Conversation(state, authCode)
    }

    constructor ()
      ensures Snapshot() == Initial
    {
      state, authCode := End, None;
    }

    /** `pw_start`. */
    method PwStart() returns (next: State)
      ensures next == AuthCode
    {
      next := AuthCode;
    }

    /** `handle_auth_code`: the stripped message becomes the token. */
    method HandleAuthCode(text: string) returns (next: State)
      modifies this
      ensures next == BatchLink
      ensures authCode == Some(Strip(text)) && state == old(state)
    {
      authCode := Some(Strip(text));
      next := BatchLink;
    }

    /** `handle_batch_link`: whatever happens, the conversation ends. */
    method HandleBatchLink(text: string, w: World) returns (next: State, reply: BatchReply)
      ensures next == End
      ensures reply == BatchLinkReply(authCode, text, w)
    {
      next := End;
      var batchUrl := Strip(text);
      var batchId := ExtractBatchId(batchUrl);
      if authCode.None? || w.detailsRaise {
        reply := Failed;
        return;
      }
      var subjects := GetSubjects(w.srv, batchId, authCode.value);
      if subjects == [] {
        reply := NoSubjects;
        return;
      }
      var file := SaveFullBatch(batchId, subjects, authCode.value, w.srv);
      reply := Delivered(file, if w.sendFails then SendFailed else Sent);
    }

    /** One update, dispatched by the current state. */
    method Receive(ev: Event, w: World) returns (reply: Option<BatchReply>)
      requires Consistent(Snapshot())
      modifies this
      ensures Snapshot() == Step(old(Snapshot()), ev)
      ensures Consistent(Snapshot())
      ensures reply ==
        if old(state) == BatchLink && ev.Message?
        then Some(BatchLinkReply(old(authCode), ev.text, w))
        else None
    {
      reply := None;
      match ev
      case PwCommand =>
        if state == End {
          var next := PwStart();
          state := next;
        }
      case Message(text) =>
        match state
        case End =>
        case AuthCode =>
          var next := HandleAuthCode(text);
          state := next;
        case BatchLink =>
          var next, r := HandleBatchLink(text, w);
          state := next;
          reply := Some(r);
    }
  }
}
