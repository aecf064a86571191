/**
 * The `ExtensionState` store of src/extensionState.ts: typed accessors over
 * two host key/value stores (Mementos) and the flag that records whether the
 * avatar path was stat'ed or the avatar directory was created.
 *
 * Each Memento is modelled as an in-memory map from key to stored value;
 * `get(key, default)` returns the stored value or the default when the key
 * was never written, and `update(key, value)` overwrites one key.
 */
module ExtensionStateStore {
  import opened Wrappers
  import opened RepoState

  const AvatarStorageFolder: string := "/avatars"
  const AvatarCacheKey: string := "avatarCache"
  const IgnoredReposKey: string := "ignoredRepos"
  const LastActiveRepoKey: string := "lastActiveRepo"
  const LastKnownGitPathKey: string := "lastKnownGitPath"
  const RepoStatesKey: string := "repoStates"

  /** A cached avatar record; its contents are opaque to this component. */
  type Avatar(==)

  /** The avatar cache index: identity (an email address) to its avatar record. */
  type AvatarCache = map<string, Avatar>

  /** The shapes of value this component writes into a Memento. */
  datatype StoredValue =
    | RepoSetValue(repos: GitRepoSet)
    | PathListValue(paths: seq<string>)
    | OptionalPathValue(path: Option<string>)
    | AvatarCacheValue(avatars: AvatarCache)

  /** A host key/value store. */
  type Memento = map<string, StoredValue>

  /** `Memento.get(key, default)`. */
  function Get(m: Memento, key: string, default: StoredValue): StoredValue
  {
    if key in m then m[key] else default
  }

  /** Each workspace-scoped key, when present, holds the type its accessors declare. */
  predicate WorkspaceWellTyped(m: Memento)
  {
    && (RepoStatesKey in m ==> m[RepoStatesKey].RepoSetValue?)
    && (IgnoredReposKey in m ==> m[IgnoredReposKey].PathListValue?)
    && (LastActiveRepoKey in m ==> m[LastActiveRepoKey].OptionalPathValue?)
  }

  /** Each global key, when present, holds the type its accessors declare. */
  predicate GlobalWellTyped(m: Memento)
  {
    && (LastKnownGitPathKey in m ==> m[LastKnownGitPathKey].OptionalPathValue?)
    && (AvatarCacheKey in m ==> m[AvatarCacheKey].AvatarCacheValue?)
  }

  class ExtensionState {
    /** The global (process-scoped) Memento. */
    var globalState: Memento
    /** The workspace-scoped Memento. */
    var workspaceState: Memento
    /** The base storage directory supplied by the host. */
    const globalStoragePath: string
    /** Whether the avatar path was stat'ed or the avatar directory was created. */
    var avatarStorageAvailable: bool

    /** The object invariant: every key this store owns holds its declared type. */
    ghost predicate Valid()
      reads this
    {
      WorkspaceWellTyped(workspaceState) && GlobalWellTyped(globalState)
    }

    /**
     * The constructor: it takes the host's two Mementos and base directory
     * and returns before provisioning of the avatar directory completes, so
     * the availability flag starts false.
     */
    constructor (globalState: Memento, workspaceState: Memento, globalStoragePath: string)
      requires WorkspaceWellTyped(workspaceState) && GlobalWellTyped(globalState)
      ensures Valid()
      ensures this.globalState == globalState && this.workspaceState == workspaceState
      ensures this.globalStoragePath == globalStoragePath
      ensures !avatarStorageAvailable
    {
      this.globalState := globalState;
      this.workspaceState := workspaceState;
      this.globalStoragePath := globalStoragePath;
      this.avatarStorageAvailable := false;
    }

    /* Provisioning of the avatar directory */

    /**
     * The callback of `fs.stat` on the avatar directory path: when the path
     * could be stat'ed, storage is available; otherwise the directories must
     * be created.
     */
    method OnAvatarDirStat(statFailed: bool) returns (createDirs: bool)
      modifies this`avatarStorageAvailable
      ensures createDirs == statFailed
      ensures avatarStorageAvailable == (old(avatarStorageAvailable) || !statFailed)
    {
      if !statFailed {
        avatarStorageAvailable := true;
        createDirs := false;
      } else {
        createDirs := true;
      }
    }

    /**
     * The callback of `fs.mkdir` on the avatar directory (issued after the
     * base directory's `mkdir`, whose outcome is ignored): on success storage
     * is available; on failure the flag is left as it was.
     */
    method OnAvatarDirMkdir(mkdirFailed: bool)
      modifies this`avatarStorageAvailable
      ensures avatarStorageAvailable == (old(avatarStorageAvailable) || !mkdirFailed)
    {
      if !mkdirFailed {
        avatarStorageAvailable := true;
      }
    }

    /**
     * The whole provisioning sequence started by the constructor: storage
     * becomes available when the avatar path could be stat'ed or the avatar
     * directory could be created, and the flag is never turned off.
     */
    method Provision(statFailed: bool, mkdirFailed: bool)
      modifies this`avatarStorageAvailable
      ensures avatarStorageAvailable == (old(avatarStorageAvailable) || !statFailed || !mkdirFailed)
      ensures old(avatarStorageAvailable) ==> avatarStorageAvailable
    {
      var createDirs := OnAvatarDirStat(statFailed);
      if createDirs {
        OnAvatarDirMkdir(mkdirFailed);
      }
    }

    /* Discovered repos */

    /** The repository set as stored, or the empty set when none was stored. */
    function StoredRepos(): (repos: GitRepoSet)
      reads this
      requires Valid()
      ensures RepoStatesKey in workspaceState ==> workspaceState[RepoStatesKey] == RepoSetValue(repos)
      ensures RepoStatesKey !in workspaceState ==> repos == map[]
    {
      Get(workspaceState, RepoStatesKey, RepoSetValue(map[])).repos
    }

    /**
     * `getRepos`: the stored repository set with every record defaulted
     * against `DEFAULT_REPO_STATE`, each entry overwritten in turn.
     */
    method GetRepos() returns (repoSet: GitRepoSet)
      requires Valid()
      ensures repoSet == NormalizeEach(StoredRepos())
      ensures RepoStatesKey !in workspaceState ==> repoSet == map[]
    {
      var stored := StoredRepos();
      repoSet := stored;
      var pending := stored.Keys;
      while pending != {}
        invariant pending <= stored.Keys
        invariant repoSet.Keys == stored.Keys
        invariant forall repo :: repo in repoSet ==>
                    repoSet[repo] == if repo in pending then stored[repo] else Normalize(stored[repo])
        decreases pending
      {
        var repo :| repo in pending;
        repoSet := repoSet[repo := Normalize(repoSet[repo])];
        pending := pending - {repo};
      }
    }

    /** `saveRepos`: overwrites the whole stored repository set. */
    method SaveRepos(gitRepoSet: GitRepoSet)
      requires Valid()
      modifies this`workspaceState
      ensures Valid()
      ensures workspaceState == old(workspaceState)[RepoStatesKey := RepoSetValue(gitRepoSet)]
      ensures StoredRepos() == gitRepoSet
    {
      workspaceState := workspaceState[RepoStatesKey := RepoSetValue(gitRepoSet)];
    }

    /* Ignored repos */

    /** `getIgnoredRepos`: the stored list, or the empty list when none was stored. */
    function GetIgnoredRepos(): (ignoredRepos: seq<string>)
      reads this
      requires Valid()
      ensures IgnoredReposKey in workspaceState ==> workspaceState[IgnoredReposKey] == PathListValue(ignoredRepos)
      ensures IgnoredReposKey !in workspaceState ==> ignoredRepos == []
    {
      Get(workspaceState, IgnoredReposKey, PathListValue([])).paths
    }

    /** `setIgnoredRepos`: overwrites the whole stored list. */
    method SetIgnoredRepos(ignoredRepos: seq<string>)
      requires Valid()
      modifies this`workspaceState
      ensures Valid()
      ensures workspaceState == old(workspaceState)[IgnoredReposKey := PathListValue(ignoredRepos)]
      ensures GetIgnoredRepos() == ignoredRepos
    {
      workspaceState := workspaceState[IgnoredReposKey := PathListValue(ignoredRepos)];
    }

    /* Last active repo */

    /** `getLastActiveRepo`: the stored repository path (or `null`), or `null` when none was stored. */
    function GetLastActiveRepo(): (repo: Option<string>)
      reads this
      requires Valid()
      ensures LastActiveRepoKey in workspaceState ==> workspaceState[LastActiveRepoKey] == OptionalPathValue(repo)
      ensures LastActiveRepoKey !in workspaceState ==> repo == None
    {
      Get(workspaceState, LastActiveRepoKey, OptionalPathValue(None)).path
    }

    /** `setLastActiveRepo`: overwrites the stored repository path; `None` (the source's `null`) clears it. */
    method SetLastActiveRepo(repo: Option<string>)
      requires Valid()
      modifies this`workspaceState
      ensures Valid()
      ensures workspaceState == old(workspaceState)[LastActiveRepoKey := OptionalPathValue(repo)]
      ensures GetLastActiveRepo() == repo
    {
      workspaceState := workspaceState[LastActiveRepoKey := OptionalPathValue(repo)];
    }

    /* Last known Git path */

    /** `getLastKnownGitPath`: the stored path, or `null` when none was stored. */
    function GetLastKnownGitPath(): (path: Option<string>)
      reads this
      requires Valid()
      ensures LastKnownGitPathKey in globalState ==> globalState[LastKnownGitPathKey] == OptionalPathValue(path)
      ensures LastKnownGitPathKey !in globalState ==> path == None
    {
      Get(globalState, LastKnownGitPathKey, OptionalPathValue(None)).path
    }

    /** `setLastKnownGitPath`: overwrites the global path; the workspace store is not touched. */
    method SetLastKnownGitPath(path: string)
      requires Valid()
      modifies this`globalState
      ensures Valid()
      ensures globalState == old(globalState)[LastKnownGitPathKey := OptionalPathValue(Some(path))]
      ensures workspaceState == old(workspaceState)
      ensures GetLastKnownGitPath() == Some(path)
    {
      globalState := globalState[LastKnownGitPathKey := OptionalPathValue(Some(path))];
    }

    /* Avatars */

    /** `isAvatarStorageAvailable`: whether provisioning has shown the avatar directory to exist. */
    function IsAvatarStorageAvailable(): (available: bool)
      reads this
      ensures available <==> avatarStorageAvailable
    {
      avatarStorageAvailable
    }

    /** `getAvatarStoragePath`: the `/avatars` directory directly under the base storage directory. */
    function GetAvatarStoragePath(): (path: string)
      ensures |path| == |globalStoragePath| + |AvatarStorageFolder|
      ensures path[..|globalStoragePath|] == globalStoragePath
      ensures path[|globalStoragePath|..] == "/avatars"
    {
      globalStoragePath + AvatarStorageFolder
    }

    /** `getAvatarCache`: the stored avatar index, or the empty index when none was stored. */
    function GetAvatarCache(): (avatars: AvatarCache)
      reads this
      requires Valid()
      ensures AvatarCacheKey in globalState ==> globalState[AvatarCacheKey] == AvatarCacheValue(avatars)
      ensures AvatarCacheKey !in globalState ==> avatars == map[]
    {
      Get(globalState, AvatarCacheKey, AvatarCacheValue(map[])).avatars
    }

    /**
     * `saveAvatar`: reads the whole index, sets the entry of `email` and
     * writes the whole index back. Only that entry changes.
     */
    method SaveAvatar(email: string, avatar: Avatar)
      requires Valid()
      modifies this`globalState
      ensures Valid()
      ensures globalState == old(globalState)[AvatarCacheKey := AvatarCacheValue(old(GetAvatarCache())[email := avatar])]
      ensures email in GetAvatarCache() && GetAvatarCache()[email] == avatar
      ensures forall other :: other != email ==>
                (other in GetAvatarCache() <==> other in old(GetAvatarCache())) &&
                (other in GetAvatarCache() ==> GetAvatarCache()[other] == old(GetAvatarCache())[other])
      ensures workspaceState == old(workspaceState)
    {
      var avatars := GetAvatarCache();
      avatars := avatars[email := avatar];
      globalState := globalState[AvatarCacheKey := AvatarCacheValue(avatars)];
    }

    /**
     * `removeAvatarFromCache`: reads the whole index, deletes the entry of
     * `email` (if any) and writes the whole index back.
     */
    method RemoveAvatarFromCache(email: string)
      requires Valid()
      modifies this`globalState
      ensures Valid()
      ensures globalState == old(globalState)[AvatarCacheKey := AvatarCacheValue(old(GetAvatarCache()) - {email})]
      ensures email !in GetAvatarCache()
      ensures GetAvatarCache().Keys == old(GetAvatarCache()).Keys - {email}
      ensures forall other :: other in GetAvatarCache() ==> GetAvatarCache()[other] == old(GetAvatarCache())[other]
      ensures email !in old(GetAvatarCache()) ==> GetAvatarCache() == old(GetAvatarCache())
      ensures workspaceState == old(workspaceState)
    {
      var avatars := GetAvatarCache();
      avatars := avatars - {email};
      globalState := globalState[AvatarCacheKey := AvatarCacheValue(avatars)];
    }

    /**
     * `clearAvatarCache`, its index part: the stored index becomes empty
     * whatever it held before.
     */
    method ClearAvatarCache()
      requires Valid()
      modifies this`globalState
      ensures Valid()
      ensures globalState == old(globalState)[AvatarCacheKey := AvatarCacheValue(map[])]
      ensures GetAvatarCache() == map[]
      ensures workspaceState == old(workspaceState)
    {
      globalState := globalState[AvatarCacheKey := AvatarCacheValue(map[])];
    }
  }
}
