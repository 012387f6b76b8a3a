/*
 * The fetch summary (_parse_git_fetch in src/mx/git.py, src/mux/git.py and
 * mux.py): every reference line git fetch printed is sorted into created
 * or updated tags and branches, and deletions, and the buckets are
 * rendered as at most three log messages.
 *
 * The regular expression that picks the reference lines out of git's
 * output is not modelled: a line arrives already split into its
 * descriptor (the bracketed word, or the commit range) and the remote
 * reference after the arrow.
 */
module GitFetch {
  import opened Common
  import opened Orchestration

  /** One reference line of git fetch: `* [new tag]  1.0 -> 1.0` has descriptor `new tag` and remote `1.0`. */
  datatype FetchLine = FetchLine(descriptor: string, remote: string)

  datatype Action = Created | Updated

  /** The created and updated lists of one kind of reference. */
  datatype Changes = Changes(created: seq<string>, updated: seq<string>)

  /** The buckets the summary is built from: branches, tags and deleted references. */
  datatype FetchSummary = FetchSummary(branches: Changes, tags: Changes, deleted: seq<string>)

  const NoChanges: FetchSummary := FetchSummary(Changes([], []), Changes([], []), [])

  /** A descriptor mentioning `new` is a creation; anything else an update. */
  function ActionOf(descriptor: string): Action {
    if Contains(descriptor, "new") then Created else Updated
  }

  function Append(c: Changes, a: Action, remote: string): Changes {
    match a
    case Created => c.(created := c.created + [remote])
    case Updated => c.(updated := c.updated + [remote])
  }

  /** One iteration of the classifying loop. */
  function Classify(s: FetchSummary, line: FetchLine): FetchSummary {
    var a := ActionOf(line.descriptor);
    var deleted := if line.descriptor == "deleted" then s.deleted + [line.remote] else s.deleted;
    if Contains(line.descriptor, "tag") then FetchSummary(s.branches, Append(s.tags, a, line.remote), deleted)
    else FetchSummary(Append(s.branches, a, line.remote), s.tags, deleted)
  }

  /** The classifying loop from the buckets filled so far. */
  function ClassifyAll(s: FetchSummary, lines: seq<FetchLine>): FetchSummary
    decreases |lines|
  {
    if lines == [] then s else ClassifyAll(Classify(s, lines[0]), lines[1..])
  }

  // ---------------------------------------------------------------------
  // The buckets as filters over the lines

  /** The five lists the summary keeps. */
  datatype Bucket = Tags(tagAction: Action) | Branches(branchAction: Action) | Deleted

  /** Which lines a bucket collects, line by line. */
  predicate InBucket(line: FetchLine, b: Bucket) {
    match b
    case Tags(a) => Contains(line.descriptor, "tag") && ActionOf(line.descriptor) == a
    case Branches(a) => !Contains(line.descriptor, "tag") && ActionOf(line.descriptor) == a
    case Deleted => line.descriptor == "deleted"
  }

  /** The lines a bucket collects, in output order. */
  function Keep(lines: seq<FetchLine>, b: Bucket): (r: seq<FetchLine>)
    ensures |r| <= |lines|
    decreases |lines|
  {
    if lines == [] then []
    else (if InBucket(lines[0], b) then [lines[0]] else []) + Keep(lines[1..], b)
  }

  function Remotes(lines: seq<FetchLine>): (r: seq<string>)
    ensures |r| == |lines| && forall i :: 0 <= i < |lines| ==> r[i] == lines[i].remote
  {
    seq(|lines|, i requires 0 <= i < |lines| => lines[i].remote)
  }

  /** One list of a summary. */
  function BucketOf(s: FetchSummary, b: Bucket): seq<string> {
    match b
    case Tags(Created) => s.tags.created
    case Tags(Updated) => s.tags.updated
    case Branches(Created) => s.branches.created
    case Branches(Updated) => s.branches.updated
    case Deleted => s.deleted
  }

  /** One iteration adds the line's remote to exactly the buckets that collect it. */
  lemma ClassifyBucket(s: FetchSummary, line: FetchLine, b: Bucket)
    ensures BucketOf(Classify(s, line), b) == BucketOf(s, b) + (if InBucket(line, b) then [line.remote] else [])
  {
  }

  /** The loop leaves in each bucket what it held before, then the remotes of the lines that bucket collects. */
  lemma {:induction false} ClassifyAllBucket(s: FetchSummary, lines: seq<FetchLine>, b: Bucket)
    ensures BucketOf(ClassifyAll(s, lines), b) == BucketOf(s, b) + Remotes(Keep(lines, b))
    decreases |lines|
  {
    if lines != [] {
      var t := Classify(s, lines[0]);
      ClassifyBucket(s, lines[0], b);
      ClassifyAllBucket(t, lines[1..], b);
      var here := if InBucket(lines[0], b) then [lines[0]] else [];
      assert Keep(lines, b) == here + Keep(lines[1..], b);
      assert Remotes(here + Keep(lines[1..], b)) == Remotes(here) + Remotes(Keep(lines[1..], b));
    }
  }

  /** Parsing from empty buckets: each bucket holds the remotes of exactly its lines, in output order. */
  lemma {:induction false} ParsedBuckets(lines: seq<FetchLine>, b: Bucket)
    ensures BucketOf(ClassifyAll(NoChanges, lines), b) == Remotes(Keep(lines, b))
  {
    ClassifyAllBucket(NoChanges, lines, b);
  }

  // ---------------------------------------------------------------------
  // What the classification promises

  /** Every character of a contained text occurs in the text containing it. */
  lemma ContainedChar(s: string, sub: string, k: nat)
    requires Contains(s, sub) && k < |sub|
    ensures sub[k] in s
  {
    var i := ContainsWitness(s, sub);
    assert s[i + k] == s[i..i + |sub|][k];
  }

  /** A deletion is neither a tag nor a creation. */
  lemma DeletedMentionsNeither()
    ensures !Contains("deleted", "tag") && !Contains("deleted", "new")
  {
    if Contains("deleted", "tag") {
      ContainedChar("deleted", "tag", 1);
    }
    if Contains("deleted", "new") {
      ContainedChar("deleted", "new", 2);
    }
  }

  /** Every line lands in exactly one of the four tag and branch lists. */
  lemma {:induction false} PartitionCount(lines: seq<FetchLine>)
    ensures |Keep(lines, Tags(Created))| + |Keep(lines, Tags(Updated))|
          + |Keep(lines, Branches(Created))| + |Keep(lines, Branches(Updated))| == |lines|
    decreases |lines|
  {
    if lines != [] {
      PartitionCount(lines[1..]);
    }
  }

  /** A deleted reference is an updated branch. */
  lemma DeletedIsUpdatedBranch(line: FetchLine)
    requires InBucket(line, Deleted)
    ensures InBucket(line, Branches(Updated))
  {
    DeletedMentionsNeither();
  }

  /** A deleted reference is also listed among the updated branches: the deleted list is a sublist of it. */
  lemma {:induction false} DeletedAmongUpdatedBranches(lines: seq<FetchLine>)
    ensures Keep(Keep(lines, Branches(Updated)), Deleted) == Keep(lines, Deleted)
    decreases |lines|
  {
    if lines != [] {
      var rest := Keep(lines[1..], Branches(Updated));
      DeletedAmongUpdatedBranches(lines[1..]);
      if InBucket(lines[0], Branches(Updated)) {
        assert Keep(lines, Branches(Updated)) == [lines[0]] + rest;
        assert ([lines[0]] + rest)[1..] == rest;
      } else {
        if InBucket(lines[0], Deleted) {
          DeletedIsUpdatedBranch(lines[0]);
        }
        assert Keep(lines, Branches(Updated)) == rest;
        assert Keep(lines, Deleted) == Keep(lines[1..], Deleted);
      }
    }
  }

  // ---------------------------------------------------------------------
  // Rendering

  /** The colour of the branch list: bold red in the packages, bold magenta in mux.py. */
  function BranchColour(rev: Rev): string {
    if rev == Script then "boldmagenta" else "boldred"
  }

  /** The coloured title a message opens with. */
  function ActionHead(a: Action): string {
    match a
    case Created => "   [green]::[reset] Created"
    case Updated => "   [yellow]::[reset] Updated"
  }

  const DeletedHead: string := "   [red]::[reset] Deleted:"

  /** A list in parentheses, its items joined by `, `, preceded by its caption only when it has items. */
  function Listing(caption: string, items: seq<string>, colour: string): string {
    (if items != [] then caption else "") + "[yellow]([" + colour + "]" + Join(items, ", ") + "[yellow])[reset]"
  }

  lemma HeadStarts(head: string, rest: string)
    ensures StartsWith(head + rest, head)
  {
    assert (head + rest)[..|head|] == head;
  }

  /** The message for one action: its title, then the tags and the branches. */
  function ActionLine(a: Action, tags: seq<string>, branches: seq<string>, branchColour: string): string {
    ActionHead(a) + " " + Listing("tags: ", tags, "boldyellow") + " " + Listing("branches: ", branches, branchColour)
  }

  function DeletedLine(deleted: seq<string>): string {
    DeletedHead + " " + Listing("", deleted, "boldred")
  }

  /** The messages the summary echoes: created, then updated, then deleted, each only when it has entries. */
  function Report(s: FetchSummary, branchColour: string): seq<string> {
    (if s.tags.created != [] || s.branches.created != [] then [ActionLine(Created, s.tags.created, s.branches.created, branchColour)] else [])
    + (if s.tags.updated != [] || s.branches.updated != [] then [ActionLine(Updated, s.tags.updated, s.branches.updated, branchColour)] else [])
    + (if s.deleted != [] then [DeletedLine(s.deleted)] else [])
  }

  /** One message per non-empty action, one more when something was deleted, and in that order. */
  lemma ReportShape(s: FetchSummary, c: string)
    ensures var r := Report(s, c);
      var created := s.tags.created != [] || s.branches.created != [];
      var updated := s.tags.updated != [] || s.branches.updated != [];
      && |r| == (if created then 1 else 0) + (if updated then 1 else 0) + (if s.deleted != [] then 1 else 0)
      && (created ==> StartsWith(r[0], ActionHead(Created)))
      && (updated ==> StartsWith(r[if created then 1 else 0], ActionHead(Updated)))
      && (s.deleted != [] ==> StartsWith(r[|r| - 1], DeletedHead))
  {
    var l1 := ActionLine(Created, s.tags.created, s.branches.created, c);
    var l2 := ActionLine(Updated, s.tags.updated, s.branches.updated, c);
    var l3 := DeletedLine(s.deleted);
    HeadStarts(ActionHead(Created), l1[|ActionHead(Created)|..]);
    HeadStarts(ActionHead(Updated), l2[|ActionHead(Updated)|..]);
    HeadStarts(DeletedHead, l3[|DeletedHead|..]);
  }

  /** A listing names every one of its items. */
  lemma ListingMentions(caption: string, items: seq<string>, colour: string, k: nat)
    requires k < |items|
    ensures Contains(Listing(caption, items, colour), items[k])
  {
    JoinContains(items, ", ", k);
    ContainsAfter((if items != [] then caption else "") + "[yellow]([" + colour + "]", Join(items, ", "), items[k]);
    ContainsBefore((if items != [] then caption else "") + "[yellow]([" + colour + "]" + Join(items, ", "), "[yellow])[reset]", items[k]);
  }

  /** The summary of a fetch is silent exactly when git reported no reference at all. */
  lemma {:induction false} ReportSilent(lines: seq<FetchLine>, c: string)
    ensures Report(ClassifyAll(NoChanges, lines), c) == [] <==> lines == []
  {
    var s := ClassifyAll(NoChanges, lines);
    ParsedBuckets(lines, Tags(Created));
    ParsedBuckets(lines, Tags(Updated));
    ParsedBuckets(lines, Branches(Created));
    ParsedBuckets(lines, Branches(Updated));
    PartitionCount(lines);
  }

  /** A line a bucket collects has its remote in that bucket's list. */
  lemma {:induction false} KeepHas(lines: seq<FetchLine>, b: Bucket, i: nat)
    requires i < |lines| && InBucket(lines[i], b)
    ensures lines[i].remote in Remotes(Keep(lines, b))
    decreases i
  {
    var here := if InBucket(lines[0], b) then [lines[0]] else [];
    assert Keep(lines, b) == here + Keep(lines[1..], b);
    assert Remotes(here + Keep(lines[1..], b)) == Remotes(here) + Remotes(Keep(lines[1..], b));
    if i > 0 {
      KeepHas(lines[1..], b, i - 1);
    }
  }

  /** The action message names every tag and every branch of its action. */
  lemma ActionLineMentions(a: Action, tags: seq<string>, branches: seq<string>, c: string, x: string)
    requires x in tags || x in branches
    ensures Contains(ActionLine(a, tags, branches, c), x)
  {
    var t := Listing("tags: ", tags, "boldyellow");
    var b := Listing("branches: ", branches, c);
    if x in tags {
      var k :| 0 <= k < |tags| && tags[k] == x;
      ListingMentions("tags: ", tags, "boldyellow", k);
      ContainsAfter(ActionHead(a) + " ", t, x);
      ContainsBefore(ActionHead(a) + " " + t, " ", x);
      ContainsBefore(ActionHead(a) + " " + t + " ", b, x);
    } else {
      var k :| 0 <= k < |branches| && branches[k] == x;
      ListingMentions("branches: ", branches, c, k);
      ContainsAfter(ActionHead(a) + " " + t + " ", b, x);
    }
  }

  /** A non-empty action has its message in the summary. */
  lemma ReportHasAction(s: FetchSummary, c: string, a: Action)
    requires BucketOf(s, Tags(a)) != [] || BucketOf(s, Branches(a)) != []
    ensures ActionLine(a, BucketOf(s, Tags(a)), BucketOf(s, Branches(a)), c) in Report(s, c)
  {
  }

  /** The remote of a parsed line sits in the tag or branch list of its action. */
  lemma {:induction false} ParsedHas(lines: seq<FetchLine>, i: nat)
    requires i < |lines|
    ensures var a := ActionOf(lines[i].descriptor); var s := ClassifyAll(NoChanges, lines);
      lines[i].remote in BucketOf(s, Tags(a)) || lines[i].remote in BucketOf(s, Branches(a))
  {
    var a := ActionOf(lines[i].descriptor);
    var b := if Contains(lines[i].descriptor, "tag") then Tags(a) else Branches(a);
    KeepHas(lines, b, i);
    ParsedBuckets(lines, b);
  }

  /** A remote in a tag or branch list is named in some message of the summary. */
  lemma SummaryMentions(s: FetchSummary, c: string, a: Action, x: string)
    requires x in BucketOf(s, Tags(a)) || x in BucketOf(s, Branches(a))
    ensures exists m :: m in Report(s, c) && Contains(m, x)
  {
    ActionLineMentions(a, BucketOf(s, Tags(a)), BucketOf(s, Branches(a)), c, x);
    ReportHasAction(s, c, a);
  }

  /** Nothing git reported is lost: every remote of a reference line is named in some message of the summary. */
  lemma {:induction false} ReportMentions(lines: seq<FetchLine>, c: string, i: nat)
    requires i < |lines|
    ensures exists m :: m in Report(ClassifyAll(NoChanges, lines), c) && Contains(m, lines[i].remote)
  {
    ParsedHas(lines, i);
    SummaryMentions(ClassifyAll(NoChanges, lines), c, ActionOf(lines[i].descriptor), lines[i].remote);
  }
}
