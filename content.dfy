/**
 * What the two HTTP calls of the bot return, and the items the exporters
 * format. `get_subjects` and `get_batch_contents` are network calls; here
 * the server's answers are a value: a missing key is a non-200 response,
 * for which both calls return an empty list.
 */
module Content {
  import opened Wrappers
  import opened Text
  import opened Pagination

  /** One entry of the contents endpoint: the optional `topic` and `url` keys. */
  datatype ContentItem = ContentItem(topic: Option<string>, url: Option<string>)

  /** One entry of a batch's `subjects` list: its `_id` and `subject` keys. */
  datatype Subject = Subject(id: string, name: string)

  /**
   * The server as seen with one client id: the subjects of each
   * (batch id, token) pair, and the pages of each (batch id, subject id, token).
   */
  datatype Server = Server(
    details: map<(string, string), seq<Subject>>,
    contents: map<(string, string, string), seq<seq<ContentItem>>>)

  /** A produced text file, with its name and what was written to it. */
  datatype ExportFile = ExportFile(name: string, content: string)

  /** Whether sending a file to the user raised. */
  datatype Delivery = Sent | SendFailed

  /** `get_subjects(batch_id, auth_code)`. */
  function GetSubjects(srv: Server, batchId: string, token: string): seq<Subject>
  {
    if (batchId, token) in srv.details then srv.details[(batchId, token)] else []
  }

  /** The page source of `get_batch_contents(batch_id, subject_id, page, auth_code)`. */
  function Pages(srv: Server, batchId: string, subjectId: string, token: string): seq<seq<ContentItem>>
  {
    if (batchId, subjectId, token) in srv.contents then srv.contents[(batchId, subjectId, token)] else []
  }

  /** `get_batch_contents(batch_id, subject_id, page, auth_code)`. */
  function GetBatchContents(srv: Server, batchId: string, subjectId: string, page: nat, token: string): seq<ContentItem>
  {
    PageAt(Pages(srv, batchId, subjectId, token), page)
  }

  /** `item.get("topic", "Untitled")`. */
  function Title(item: ContentItem): string
  {
    item.topic.GetOr("Untitled")
  }

  /** `item.get("url", "")`. */
  function RawUrl(item: ContentItem): string
  {
    item.url.GetOr("")
  }

  /** The line written for an item, without its newline: `title: url` with the url stripped. */
  function Body(item: ContentItem): string
  {
    Title(item) + ": " + Strip(RawUrl(item))
  }

  /** The per-subject export's test: the raw url is non-empty. */
  predicate HasUrl(item: ContentItem)
  {
    RawUrl(item) != ""
  }

  /** The full-batch export's test: the url is non-empty once stripped. */
  predicate HasStrippedUrl(item: ContentItem)
  {
    Strip(RawUrl(item)) != ""
  }

  /** The items of `items` that `keep` accepts, in their order. */
  function Filter(items: seq<ContentItem>, keep: ContentItem -> bool): (r: seq<ContentItem>)
    ensures |r| <= |items|
  {
    if items == [] then []
    else
      var last := items[|items| - 1];
      Filter(items[..|items| - 1], keep) + (if keep(last) then [last] else [])
  }

  /** The kept items are exactly the items of the input that `keep` accepts. */
  lemma {:induction false} FilterMembers(items: seq<ContentItem>, keep: ContentItem -> bool)
    ensures forall x :: x in Filter(items, keep) <==> x in items && keep(x)
  {
    if items != [] {
      var init, last := items[..|items| - 1], items[|items| - 1];
      FilterMembers(init, keep);
      assert items == init + [last];
    }
  }

  /** Filtering keeps order: the kept items of `a + b` are those of `a`, then those of `b`. */
  lemma {:induction false} FilterAppend(a: seq<ContentItem>, b: seq<ContentItem>, keep: ContentItem -> bool)
    ensures Filter(a + b, keep) == Filter(a, keep) + Filter(b, keep)
  {
    if b == [] {
      assert a + b == a;
    } else {
      var init, last := b[..|b| - 1], b[|b| - 1];
      var tail := if keep(last) then [last] else [];
      calc {
        Filter(a + b, keep);
        { assert (a + b)[..|a + b| - 1] == a + init; assert (a + b)[|a + b| - 1] == last; }
        Filter(a + init, keep) + tail;
        { FilterAppend(a, init, keep); }
        (Filter(a, keep) + Filter(init, keep)) + tail;
        { AppendAssoc(Filter(a, keep), Filter(init, keep), tail); }
        Filter(a, keep) + Filter(b, keep);
      }
    }
  }

  /** The line bodies of `items`, one per item, in order. */
  function Bodies(items: seq<ContentItem>): (r: seq<string>)
    ensures |r| == |items|
    ensures forall k | 0 <= k < |items| :: r[k] == Body(items[k])
  {
    seq(|items|, k requires 0 <= k < |items| => Body(items[k]))
  }

  lemma BodiesAppend(a: seq<ContentItem>, b: seq<ContentItem>)
    ensures Bodies(a + b) == Bodies(a) + Bodies(b)
  {
  }

  /**
   * The text written for the items of one subject, line by line as the
   * loop does it, equals the text of the lines of the kept items.
   */
  lemma ExportStep(done: seq<ContentItem>, item: ContentItem, keep: ContentItem -> bool)
    ensures Lines(Bodies(Filter(done + [item], keep)))
         == Lines(Bodies(Filter(done, keep))) + (if keep(item) then Body(item) + "\n" else "")
  {
    var kept := Filter(done, keep);
    FilterAppend(done, [item], keep);
    FilterSingle(item, keep);
    if keep(item) {
      calc {
        Lines(Bodies(Filter(done + [item], keep)));
        { assert Filter(done + [item], keep) == kept + [item]; }
        Lines(Bodies(kept + [item]));
        { BodiesAppend(kept, [item]); assert Bodies([item]) == [Body(item)]; }
        Lines(Bodies(kept) + [Body(item)]);
        { LinesAppend(Bodies(kept), [Body(item)]); }
        Lines(Bodies(kept)) + Lines([Body(item)]);
        { LinesSingle(Body(item)); }
        Lines(Bodies(kept)) + (Body(item) + "\n");
      }
    } else {
      assert Filter(done + [item], keep) == kept + [];
      assert kept + [] == kept;
      assert Lines(Bodies(kept)) + "" == Lines(Bodies(kept));
    }
  }

  /** `ExportStep` for the loop that walks `items` by index. */
  lemma ExportStepAt(items: seq<ContentItem>, i: nat, keep: ContentItem -> bool)
    requires i < |items|
    ensures Lines(Bodies(Filter(items[..i + 1], keep)))
         == Lines(Bodies(Filter(items[..i], keep))) + (if keep(items[i]) then Body(items[i]) + "\n" else "")
  {
    assert items[..i + 1] == items[..i] + [items[i]];
    ExportStep(items[..i], items[i], keep);
  }

  lemma FilterSingle(item: ContentItem, keep: ContentItem -> bool)
    ensures Filter([item], keep) == if keep(item) then [item] else []
  {
    assert [item][..0] == [];
  }

  /** The text exported for `a + b` is that of `a`, then that of `b`. */
  lemma ExportAppend(a: seq<ContentItem>, b: seq<ContentItem>, keep: ContentItem -> bool)
    ensures Lines(Bodies(Filter(a + b, keep)))
         == Lines(Bodies(Filter(a, keep))) + Lines(Bodies(Filter(b, keep)))
  {
    FilterAppend(a, b, keep);
    BodiesAppend(Filter(a, keep), Filter(b, keep));
    LinesAppend(Bodies(Filter(a, keep)), Bodies(Filter(b, keep)));
  }

  /**
   * Reading an export back: when no title and no stripped url holds a
   * newline, the file's lines are exactly the bodies of the kept items, in
   * order, followed by the empty rest after the last newline.
   */
  lemma ReadBack(items: seq<ContentItem>, keep: ContentItem -> bool)
    requires forall x | x in items :: '\n' !in Title(x) && '\n' !in Strip(RawUrl(x))
    ensures Split(Lines(Bodies(Filter(items, keep))), '\n') == Bodies(Filter(items, keep)) + [[]]
  {
    var kept := Filter(items, keep);
    FilterMembers(items, keep);
    forall k | 0 <= k < |kept|
      ensures '\n' !in Bodies(kept)[k]
    {
      assert kept[k] in items;
    }
    SplitLines(Bodies(kept));
  }

  /**
   * The two exporters differ on a url made of whitespace only: the
   * per-subject one writes `title: ` for it, the full-batch one skips it.
   * Everywhere else they agree.
   */
  lemma WhitespaceUrl(item: ContentItem)
    ensures HasStrippedUrl(item) ==> HasUrl(item)
    ensures HasUrl(item) && !HasStrippedUrl(item) ==> Body(item) == Title(item) + ": "
  {
  }
}
