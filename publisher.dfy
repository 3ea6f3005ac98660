/**
 * The per-file publishing loop of `presser`: each listed file is read,
 * optionally converted from Markdown, put into a fresh `WordPressPost`,
 * and either previewed (dry run) or submitted with one `NewPost` call.
 * The Markdown converter, the file contents and the outcome of each
 * remote call are parameters.
 */
module Publisher {
  import opened Wrappers

  datatype PostStatus = Draft | Publish | Private

  /** The parsed command-line options. */
  datatype RunOptions = RunOptions(
    configFile: Option<string>,
    title: string,
    posts: seq<string>,
    status: PostStatus,
    noParse: bool,
    dryRun: bool)

  const DefaultTitle: string := "A new post"
  const DefaultStatus: PostStatus := Draft

  /** The values a post carries when it is printed or submitted. */
  datatype PostRecord = PostRecord(title: string, content: string, status: PostStatus)

  /** What one `NewPost` call does: succeed, raise `InvalidCredentialsError`, or raise anything else. */
  datatype CallOutcome = Accepted | InvalidCredentials | OtherError

  /** How the run ends. */
  datatype Exit =
    | Completed
    | NoConfigFile
    | Unreachable
    | NoPosts
    | CredentialsRejected(at: nat)
    | CallRaised(at: nat)

  /**
   * What a run leaves behind: the files opened, the posts submitted (in
   * call order), the files reported as uploaded, the posts printed in dry
   * run, and how the run ended.
   */
  datatype Trace = Trace(
    files: seq<string>,
    submitted: seq<PostRecord>,
    uploaded: seq<string>,
    previewed: seq<PostRecord>,
    exit: Exit)

  /** The `WordPressPost` object whose fields the loop sets one by one. */
  class WordPressPost {
    var title: string
    var content: string
    var postStatus: PostStatus

    constructor ()
      ensures title == "" && content == "" && postStatus == DefaultStatus
    {
      title := "";
      content := "";
      postStatus := DefaultStatus;
    }

    function Record(): PostRecord
      reads this
    {
      PostRecord(title, content, postStatus)
    }
  }

  /** The post built from one file. */
  function RecordFor(opts: RunOptions, read: string -> string, markdown: string -> string, path: string): PostRecord {
    PostRecord(opts.title, if opts.noParse then read(path) else markdown(read(path)), opts.status)
  }

  /** The posts built from a list of files, in list order. */
  function Records(opts: RunOptions, read: string -> string, markdown: string -> string, paths: seq<string>): (r: seq<PostRecord>)
    ensures |r| == |paths|
  {
    if paths == [] then []
    else Records(opts, read, markdown, paths[..|paths| - 1]) + [RecordFor(opts, read, markdown, paths[|paths| - 1])]
  }

  function FirstStopFrom(call: nat -> CallOutcome, i: nat, n: nat): (k: nat)
    requires i <= n
    ensures i <= k <= n
    ensures forall j :: i <= j < k ==> call(j) == Accepted
    ensures k < n ==> call(k) != Accepted
    decreases n - i
  {
    if i == n then n
    else if call(i) != Accepted then i
    else FirstStopFrom(call, i + 1, n)
  }

  /** The index of the first of `n` calls that is not accepted, or `n` when all are. */
  function FirstStop(call: nat -> CallOutcome, n: nat): (k: nat)
    ensures k <= n
    ensures forall j :: 0 <= j < k ==> call(j) == Accepted
    ensures k < n ==> call(k) != Accepted
  {
    FirstStopFrom(call, 0, n)
  }

  /**
   * The trace of the loop, in closed form. A dry run opens and converts
   * every file and submits nothing. Otherwise the files are submitted in
   * order up to and including the first call that is not accepted.
   */
  function PublishTrace(opts: RunOptions, read: string -> string, markdown: string -> string, call: nat -> CallOutcome): Trace {
    var posts := opts.posts;
    if opts.dryRun then
      Trace(posts, [], [], Records(opts, read, markdown, posts), Completed)
    else
      var k := FirstStop(call, |posts|);
      var tried := if k < |posts| then k + 1 else k;
      var exit :=
        if k == |posts| then Completed
        else if call(k) == InvalidCredentials then CredentialsRejected(k)
        else CallRaised(k);
      Trace(posts[..tried], Records(opts, read, markdown, posts[..tried]), posts[..k], [], exit)
  }

  /** Extending the list by one file extends its posts by that file's post. */
  lemma RecordsSnoc(opts: RunOptions, read: string -> string, markdown: string -> string, posts: seq<string>, i: nat)
    requires i < |posts|
    ensures posts[..i + 1] == posts[..i] + [posts[i]]
    ensures Records(opts, read, markdown, posts[..i + 1])
      == Records(opts, read, markdown, posts[..i]) + [RecordFor(opts, read, markdown, posts[i])]
  {
  }

  /** One step of the search for the first call that is not accepted. */
  lemma FirstStopStep(call: nat -> CallOutcome, n: nat, i: nat)
    requires i < n && i <= FirstStop(call, n)
    ensures call(i) == Accepted ==> i + 1 <= FirstStop(call, n)
    ensures call(i) != Accepted ==> FirstStop(call, n) == i
  {
  }

  /** Outside dry run, a run whose first refused call is `i` submitted files `0..i`. */
  lemma StoppedTrace(opts: RunOptions, read: string -> string, markdown: string -> string, call: nat -> CallOutcome, i: nat)
    requires !opts.dryRun && i < |opts.posts| && FirstStop(call, |opts.posts|) == i
    ensures PublishTrace(opts, read, markdown, call) ==
      Trace(opts.posts[..i + 1], Records(opts, read, markdown, opts.posts[..i + 1]), opts.posts[..i], [],
        if call(i) == InvalidCredentials then CredentialsRejected(i) else CallRaised(i))
  {
  }

  /** A run that went through the whole list. */
  lemma CompletedTrace(opts: RunOptions, read: string -> string, markdown: string -> string, call: nat -> CallOutcome)
    requires !opts.dryRun ==> FirstStop(call, |opts.posts|) == |opts.posts|
    ensures PublishTrace(opts, read, markdown, call) ==
      if opts.dryRun then Trace(opts.posts, [], [], Records(opts, read, markdown, opts.posts), Completed)
      else Trace(opts.posts, Records(opts, read, markdown, opts.posts), opts.posts, [], Completed)
  {
    assert opts.posts[..|opts.posts|] == opts.posts;
  }

  /** A new `WordPressPost` with its title, content and status set. */
  method BuildPost(title: string, content: string, status: PostStatus) returns (post: WordPressPost)
    ensures fresh(post)
    ensures post.Record() == PostRecord(title, content, status)
  {
    post := new WordPressPost();
    post.title := title;
    post.content := content;
    post.postStatus := status;
  }

  /** The loop over `options.posts_to_process`. The `k`-th remote call has outcome `call(k)`. */
  method ProcessPosts(opts: RunOptions, read: string -> string, markdown: string -> string, call: nat -> CallOutcome)
    returns (t: Trace)
    ensures t == PublishTrace(opts, read, markdown, call)
  {
    var posts := opts.posts;
    var files: seq<string> := [];
    var submitted: seq<PostRecord> := [];
    var uploaded: seq<string> := [];
    var previewed: seq<PostRecord> := [];
    var i := 0;
    while i < |posts|
      invariant 0 <= i <= |posts|
      invariant files == posts[..i]
      invariant opts.dryRun ==>
        submitted == [] && uploaded == [] && previewed == Records(opts, read, markdown, posts[..i])
      invariant !opts.dryRun ==>
        previewed == [] && i <= FirstStop(call, |posts|)
        && submitted == Records(opts, read, markdown, posts[..i]) && uploaded == posts[..i]
    {
      var p := posts[i];
      var text;
      if !opts.noParse {
        text := markdown(read(p));
      } else {
        text := read(p);
      }
      var post := BuildPost(opts.title, text, opts.status);
      var record := post.Record();
      RecordsSnoc(opts, read, markdown, posts, i);
      files := files + [p];
      if opts.dryRun {
        previewed := previewed + [record];
        i := i + 1;
        continue;
      }
      var outcome := call(|submitted|);
      FirstStopStep(call, |posts|, i);
      submitted := submitted + [record];
      if outcome != Accepted {
        StoppedTrace(opts, read, markdown, call, i);
        t := Trace(files, submitted, uploaded, previewed,
          if outcome == InvalidCredentials then CredentialsRejected(i) else CallRaised(i));
        return;
      }
      uploaded := uploaded + [p];
      i := i + 1;
    }
    assert posts[..i] == posts;
    CompletedTrace(opts, read, markdown, call);
    t := Trace(files, submitted, uploaded, previewed, Completed);
  }

  /** Post `i` of a list is built from file `i`: the run's title and status, the raw or converted text. */
  lemma {:induction false} RecordsAt(opts: RunOptions, read: string -> string, markdown: string -> string, paths: seq<string>, i: nat)
    requires i < |paths|
    ensures Records(opts, read, markdown, paths)[i] ==
      PostRecord(opts.title, if opts.noParse then read(paths[i]) else markdown(read(paths[i])), opts.status)
  {
    if i < |paths| - 1 {
      var front := paths[..|paths| - 1];
      RecordsAt(opts, read, markdown, front, i);
      assert front[i] == paths[i];
    }
  }

  /**
   * A dry run makes no remote call, for any list of files, yet opens every
   * file and prints the post built from each, in order.
   */
  lemma DryRunMakesNoCalls(opts: RunOptions, read: string -> string, markdown: string -> string, call: nat -> CallOutcome)
    requires opts.dryRun
    ensures var t := PublishTrace(opts, read, markdown, call);
      && t.submitted == [] && t.uploaded == [] && t.exit == Completed
      && t.files == opts.posts
      && |t.previewed| == |opts.posts|
      && forall i :: 0 <= i < |opts.posts| ==>
           t.previewed[i] == PostRecord(opts.title,
             if opts.noParse then read(opts.posts[i]) else markdown(read(opts.posts[i])), opts.status)
  {
    forall i | 0 <= i < |opts.posts| {
      RecordsAt(opts, read, markdown, opts.posts, i);
    }
  }

  /**
   * Outside dry run, the submissions follow the list order, each file is
   * submitted at most once, every submission but a failing last one is
   * reported as uploaded, and nothing is printed as a preview.
   */
  lemma SubmissionsInOrder(opts: RunOptions, read: string -> string, markdown: string -> string, call: nat -> CallOutcome)
    requires !opts.dryRun
    ensures var t := PublishTrace(opts, read, markdown, call);
      && |t.submitted| <= |opts.posts|
      && t.files == opts.posts[..|t.submitted|]
      && t.uploaded == opts.posts[..|t.uploaded|]
      && t.previewed == []
      && (t.exit == Completed <==> |t.uploaded| == |t.submitted|)
      && (t.exit == Completed ==> t.uploaded == opts.posts)
      && (t.exit != Completed ==> |t.submitted| == |t.uploaded| + 1)
      && forall i :: 0 <= i < |t.submitted| ==>
           t.submitted[i] == PostRecord(opts.title,
             if opts.noParse then read(opts.posts[i]) else markdown(read(opts.posts[i])), opts.status)
  {
    var t := PublishTrace(opts, read, markdown, call);
    var tried := opts.posts[..|t.submitted|];
    forall i | 0 <= i < |t.submitted|
      ensures t.submitted[i] == PostRecord(opts.title,
        if opts.noParse then read(opts.posts[i]) else markdown(read(opts.posts[i])), opts.status)
    {
      RecordsAt(opts, read, markdown, tried, i);
      assert tried[i] == opts.posts[i];
    }
  }

  /**
   * If the first `k` calls are accepted and call `k` raises
   * `InvalidCredentialsError`, the run stops there: files `0..k-1` were
   * submitted once each and reported, file `k` was submitted, nothing
   * after it was opened or submitted.
   */
  lemma CredentialsAbort(opts: RunOptions, read: string -> string, markdown: string -> string, call: nat -> CallOutcome, k: nat)
    requires !opts.dryRun && k < |opts.posts|
    requires forall i :: 0 <= i < k ==> call(i) == Accepted
    requires call(k) == InvalidCredentials
    ensures var t := PublishTrace(opts, read, markdown, call);
      && t.exit == CredentialsRejected(k)
      && t.files == opts.posts[..k + 1]
      && t.uploaded == opts.posts[..k]
      && |t.submitted| == k + 1
      && forall i :: 0 <= i <= k ==> t.submitted[i] == RecordFor(opts, read, markdown, opts.posts[i])
  {
    var n := |opts.posts|;
    assert FirstStop(call, n) == k;
    SubmissionsInOrder(opts, read, markdown, call);
  }

  /** When every call is accepted the whole list is submitted and reported, in order. */
  lemma AllAcceptedPublishesAll(opts: RunOptions, read: string -> string, markdown: string -> string, call: nat -> CallOutcome)
    requires !opts.dryRun
    requires forall i :: 0 <= i < |opts.posts| ==> call(i) == Accepted
    ensures var t := PublishTrace(opts, read, markdown, call);
      && t.exit == Completed
      && t.files == opts.posts && t.uploaded == opts.posts
      && t.submitted == Records(opts, read, markdown, opts.posts)
  {
  }

  /**
   * `--posts a.md --no-parse --dry-run` with `a.md` holding `hello`: one
   * preview with the default title, content `hello`, status draft, and no
   * remote call.
   */
  lemma DryRunNoParseScenario(read: string -> string, markdown: string -> string, call: nat -> CallOutcome)
    requires read("a.md") == "hello"
    ensures var opts := RunOptions(None, DefaultTitle, ["a.md"], DefaultStatus, true, true);
      var t := PublishTrace(opts, read, markdown, call);
      t.previewed == [PostRecord("A new post", "hello", Draft)] && t.submitted == []
  {
  }
}
