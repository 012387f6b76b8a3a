/*
 * The repository list of a workspace (Git.__init__ and _parse_repo_url in
 * src/mx/git.py, the same loop in src/mux/git.py and in the Workspace of
 * mux.py): each configured entry becomes a record with a name, a clone url
 * and the directory it is checked out in.
 */
module GitRepos {
  import opened Common
  import opened Orchestration

  /** A normalised repository: `name`, `url` and `dir`, or whatever keys a mapping entry brought. */
  type Repo = map<string, string>

  /** One entry of the `repos` list: an `owner/repo` string, or a mapping given in full. */
  datatype RepoSpec = Named(name: string) | Fields(fields: map<string, string>)

  /** The clone url of a short `owner/repo` name on GitHub. */
  function GitHubUrl(name: string): string {
    "https://github.com/" + name + ".git"
  }

  /** Every expanded url names GitHub's host. */
  lemma GitHubUrlHost(name: string)
    ensures Contains(GitHubUrl(name), "github.com")
  {
    var url := GitHubUrl(name);
    assert url[8..18] == "github.com";
    ContainsAt(url, "github.com", 8);
  }

  /** _parse_repo_url: a name that does not mention github.com is expanded, any other is already a url. */
  function ParseRepoUrl(name: string): (url: string)
    ensures Contains(url, "github.com")
    ensures Contains(name, "github.com") ==> url == name
  {
    GitHubUrlHost(name);
    if !Contains(name, "github.com") then GitHubUrl(name) else name
  }

  /** Completing a url twice changes nothing: what it returns already names the host. */
  lemma ParseRepoUrlIdempotent(name: string)
    ensures ParseRepoUrl(ParseRepoUrl(name)) == ParseRepoUrl(name)
  {
  }

  /** The url a string entry gets: the later revision expands short names only, the earlier ones always. */
  function RepoUrl(rev: Rev, name: string): string {
    if rev == Mx then ParseRepoUrl(name) else GitHubUrl(name)
  }

  /**
   * One iteration of the collecting loop. A string entry gets its url and
   * its second `/`-segment as directory (IndexError without a `/`). In the
   * later revision a mapping is kept, given a url from its `name` only when
   * it has none; the earlier revisions format a mapping into the url and
   * then fail on `.split`.
   */
  function NormalizeRepo(rev: Rev, spec: RepoSpec): (r: Result<Repo>)
    ensures r.Ok? ==> "url" in r.value
    ensures r.Ok? && spec.Named? ==> r.value.Keys == {"name", "url", "dir"} && r.value["name"] == spec.name
  {
    match spec
    case Named(n) =>
      (match Field(n, '/', 1)
       case None => Err(IndexError)
       case Some(dir) => Ok(map["name" := n, "url" := RepoUrl(rev, n), "dir" := dir]))
    case Fields(f) =>
      if rev != Mx then Err(AttributeError)
      else if "url" in f then Ok(f)
      else if "name" !in f then Err(KeyError("name"))
      else Ok(f["url" := ParseRepoUrl(f["name"])])
  }

  /** A string entry is accepted exactly when it holds a `/`. */
  lemma NamedRepoNeedsSlash(rev: Rev, name: string)
    ensures NormalizeRepo(rev, Named(name)).Ok? <==> '/' in name
    ensures '/' !in name ==> NormalizeRepo(rev, Named(name)) == Err(IndexError)
  {
    SplitLength(name, '/');
    CountCharPositive(name, '/');
  }

  /** `owner/repo` is checked out in `repo`, cloned from the url its revision gives it. */
  lemma NamedRepoShape(rev: Rev, owner: string, repo: string)
    requires '/' !in owner && '/' !in repo
    ensures NormalizeRepo(rev, Named(owner + "/" + repo))
         == Ok(map["name" := owner + "/" + repo, "url" := RepoUrl(rev, owner + "/" + repo), "dir" := repo])
    ensures rev != Mx ==>
      NormalizeRepo(rev, Named(owner + "/" + repo)).value["url"] == "https://github.com/" + owner + "/" + repo + ".git"
  {
    SplitNone(repo, '/');
    SplitCons(owner, '/', repo);
    assert owner + "/" + repo == owner + ['/'] + repo;
  }

  /** A mapping entry of the later revision keeps every key it had, and its own url when it has one. */
  lemma FieldsRepoKept(f: map<string, string>)
    requires NormalizeRepo(Mx, Fields(f)).Ok?
    ensures var r := NormalizeRepo(Mx, Fields(f)).value;
      && f.Keys <= r.Keys && r.Keys <= f.Keys + {"url"}
      && (forall k :: k in f && k != "url" ==> r[k] == f[k])
      && ("url" in f ==> r == f)
      && ("url" !in f ==> "name" in f && r["url"] == ParseRepoUrl(f["name"]))
  {
  }

  /** A mapping without url or name is refused with the missing key; the earlier revisions refuse every mapping. */
  lemma FieldsRepoRefused(rev: Rev, f: map<string, string>)
    ensures rev != Mx ==> NormalizeRepo(rev, Fields(f)) == Err(AttributeError)
    ensures rev == Mx ==> (NormalizeRepo(rev, Fields(f)).Err? <==> "url" !in f && "name" !in f)
  {
  }

  /** The repositories collected so far, and the error that stopped the loop, if any. */
  datatype Collected = Collected(repos: seq<Repo>, failure: Option<Error>)

  /** The collecting loop from the repositories already held: entries in order until one fails. */
  function Collect(rev: Rev, repos: seq<Repo>, specs: seq<RepoSpec>): Collected
    decreases |specs|
  {
    if specs == [] then Collected(repos, None)
    else match NormalizeRepo(rev, specs[0])
      case Err(e) => Collected(repos, Some(e))
      case Ok(repo) => Collect(rev, repos + [repo], specs[1..])
  }

  /**
   * What the loop leaves in `c` from `repos`: the normalised entries in
   * order, appended; it stops at the first entry that fails, with that
   * entry's error, and has then appended exactly the entries before it.
   */
  predicate Collects(rev: Rev, repos: seq<Repo>, specs: seq<RepoSpec>, c: Collected) {
    && |repos| <= |c.repos| <= |repos| + |specs| && c.repos[..|repos|] == repos
    && (forall i :: |repos| <= i < |c.repos| ==> NormalizeRepo(rev, specs[i - |repos|]) == Ok(c.repos[i]))
    && (c.failure.None? <==> |c.repos| == |repos| + |specs|)
    && (c.failure.Some? ==> NormalizeRepo(rev, specs[|c.repos| - |repos|]) == Err(c.failure.value))
  }

  /** An entry that normalises, put before entries the loop collected, is collected first. */
  lemma CollectsPrepend(rev: Rev, repos: seq<Repo>, specs: seq<RepoSpec>, repo: Repo, c: Collected)
    requires specs != [] && NormalizeRepo(rev, specs[0]) == Ok(repo)
    requires Collects(rev, repos + [repo], specs[1..], c)
    ensures Collects(rev, repos, specs, c)
  {
    var more := repos + [repo];
    assert c.repos[..|repos|] == c.repos[..|more|][..|repos|];
    forall i | |repos| <= i < |c.repos|
      ensures NormalizeRepo(rev, specs[i - |repos|]) == Ok(c.repos[i])
    {
      if i == |repos| {
        assert c.repos[i] == c.repos[..|more|][i];
      } else {
        assert specs[1..][i - |more|] == specs[i - |repos|];
      }
    }
    if c.failure.Some? {
      assert specs[1..][|c.repos| - |more|] == specs[|c.repos| - |repos|];
    }
  }

  /** The collecting loop does what Collects says. */
  lemma {:induction false} CollectSpec(rev: Rev, repos: seq<Repo>, specs: seq<RepoSpec>)
    ensures Collects(rev, repos, specs, Collect(rev, repos, specs))
    decreases |specs|
  {
    if specs != [] {
      var n := NormalizeRepo(rev, specs[0]);
      if n.Ok? {
        CollectSpec(rev, repos + [n.value], specs[1..]);
        CollectsPrepend(rev, repos, specs, n.value, Collect(rev, repos + [n.value], specs[1..]));
      }
    }
  }
}
