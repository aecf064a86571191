/**
 * Repository records as the workspace store keeps them, the default record
 * schema `DEFAULT_REPO_STATE`, and the per-record defaulting that `getRepos`
 * applies when it reads them back (src/extensionState.ts:13-16, 45-51).
 *
 * A stored record is modelled as the JSON object it is persisted as: a map
 * from field name to field value. A record written by an older version of
 * the extension may lack fields of the current schema; fields beyond the
 * two default ones are carried along untouched.
 */
module RepoState {

  /** One JSON field value of a stored record (numbers are integers here). */
  datatype FieldValue =
    | Null
    | Bool(b: bool)
    | Number(n: int)
    | Text(s: string)
    | List(items: seq<FieldValue>)
    | Object(fields: map<string, FieldValue>)

  /** A repository record as stored: field name to field value. */
  type RepoRecord = map<string, FieldValue>

  /** A repository set: repository path to its record. */
  type GitRepoSet = map<string, RepoRecord>

  const ColumnWidths: string := "columnWidths"
  const ShowRemoteBranches: string := "showRemoteBranches"

  /** `DEFAULT_REPO_STATE`: no saved column widths, remote branches shown. */
  const DefaultRepoState: RepoRecord := map[ColumnWidths := Null, ShowRemoteBranches := Bool(true)]

  /**
   * `Object.assign(target, source)` for one source object: every own field of
   * `source` is copied onto `target`, overwriting a field of the same name.
   */
  function Assign(target: RepoRecord, source: RepoRecord): (r: RepoRecord)
    ensures r.Keys == target.Keys + source.Keys
    ensures forall f :: f in source ==> r[f] == source[f]
    ensures forall f :: f in target && f !in source ==> r[f] == target[f]
  {
    target + source
  }

  /** The record holds every field of the current default schema. */
  predicate HasDefaultFields(r: RepoRecord)
  {
    DefaultRepoState.Keys <= r.Keys
  }

  /**
   * `Object.assign({}, DEFAULT_REPO_STATE, stored)`: the record read back for
   * `stored`. Stored fields win; fields missing from `stored` are filled in
   * from the defaults; no other field appears.
   */
  function Normalize(stored: RepoRecord): (r: RepoRecord)
    ensures HasDefaultFields(r)
    ensures r.Keys == DefaultRepoState.Keys + stored.Keys
    ensures forall f :: f in stored ==> r[f] == stored[f]
    ensures forall f :: f in DefaultRepoState && f !in stored ==> r[f] == DefaultRepoState[f]
  {
    Assign(Assign(map[], DefaultRepoState), stored)
  }

  /** Defaulting a record a second time changes nothing. */
  lemma NormalizeIdempotent(stored: RepoRecord)
    ensures Normalize(Normalize(stored)) == Normalize(stored)
  {
  }

  /** A record is left as it is by defaulting exactly when it already has every default field. */
  lemma NormalizeFixedPoint(r: RepoRecord)
    ensures Normalize(r) == r <==> HasDefaultFields(r)
  {
  }

  /**
   * The repository set `getRepos` returns for a stored set: the same
   * repository paths, each record defaulted on its own.
   */
  function NormalizeEach(repos: GitRepoSet): (r: GitRepoSet)
    ensures r.Keys == repos.Keys
    ensures forall repo :: repo in r ==> HasDefaultFields(r[repo])
    ensures forall repo, f :: repo in repos && f in repos[repo] ==> f in r[repo] && r[repo][f] == repos[repo][f]
    ensures forall repo, f :: repo in repos && f in DefaultRepoState && f !in repos[repo] ==> f in r[repo] && r[repo][f] == DefaultRepoState[f]
  {
    map repo | repo in repos :: Normalize(repos[repo])
  }

  /** Reading back a repository set that was already defaulted changes nothing. */
  lemma NormalizeEachIdempotent(repos: GitRepoSet)
    ensures NormalizeEach(NormalizeEach(repos)) == NormalizeEach(repos)
  {
    var once := NormalizeEach(repos);
    forall repo | repo in once
      ensures NormalizeEach(once)[repo] == once[repo]
    {
      NormalizeIdempotent(repos[repo]);
    }
  }
}
