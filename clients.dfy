/**
 * Callers of `ExtensionState` that chain its operations, stating what a
 * sequence of calls promises: defaults on a fresh store, round-trips of
 * every record, and the provisioning outcome after construction.
 */
module ExtensionStateClients {
  import opened Wrappers
  import opened RepoState
  import opened ExtensionStateStore

  /** A store whose Mementos were never written reads back every accessor's default. */
  method FreshStoreDefaults(globalStoragePath: string)
    returns (repos: GitRepoSet, ignored: seq<string>, lastActive: Option<string>,
             gitPath: Option<string>, avatars: AvatarCache, available: bool)
    ensures repos == map[] && ignored == [] && lastActive == None
    ensures gitPath == None && avatars == map[] && !available
  {
    var s := new ExtensionState(map[], map[], globalStoragePath);
    repos := s.GetRepos();
    ignored := s.GetIgnoredRepos();
    lastActive := s.GetLastActiveRepo();
    gitPath := s.GetLastKnownGitPath();
    avatars := s.GetAvatarCache();
    available := s.IsAvatarStorageAvailable();
  }

  /**
   * Provisioning right after construction: storage is available exactly when
   * the directory already existed or its creation succeeded.
   */
  method ProvisionAfterConstruction(globalStoragePath: string, statFailed: bool, mkdirFailed: bool)
    returns (available: bool, storagePath: string)
    ensures available <==> !statFailed || !mkdirFailed
    ensures storagePath == globalStoragePath + "/avatars"
  {
    var s := new ExtensionState(map[], map[], globalStoragePath);
    s.Provision(statFailed, mkdirFailed);
    available := s.IsAvatarStorageAvailable();
    storagePath := s.GetAvatarStoragePath();
  }

  /** `saveRepos(S)` then `getRepos()` gives `S` with every record defaulted. */
  method ReposRoundTrip(s: ExtensionState, gitRepoSet: GitRepoSet) returns (repos: GitRepoSet)
    requires s.Valid()
    modifies s
    ensures s.Valid()
    ensures repos == NormalizeEach(gitRepoSet)
    ensures NormalizeEach(repos) == repos
  {
    s.SaveRepos(gitRepoSet);
    repos := s.GetRepos();
    NormalizeEachIdempotent(gitRepoSet);
  }

  /** The workspace records read back unchanged after the global Git path is written. */
  method GitPathLeavesWorkspace(s: ExtensionState, path: string)
    returns (ignored: seq<string>, lastActive: Option<string>, gitPath: Option<string>)
    requires s.Valid()
    modifies s
    ensures s.Valid()
    ensures ignored == old(s.GetIgnoredRepos()) && lastActive == old(s.GetLastActiveRepo())
    ensures s.StoredRepos() == old(s.StoredRepos())
    ensures gitPath == Some(path)
  {
    s.SetLastKnownGitPath(path);
    ignored := s.GetIgnoredRepos();
    lastActive := s.GetLastActiveRepo();
    gitPath := s.GetLastKnownGitPath();
  }

  /**
   * `saveAvatar(e, a)` then `removeAvatarFromCache(e)`: the entry is gone,
   * and an identity that was not cached before leaves the index as it was.
   */
  method AvatarSaveThenRemove(s: ExtensionState, email: string, avatar: Avatar)
    returns (afterSave: AvatarCache, afterRemove: AvatarCache)
    requires s.Valid()
    modifies s
    ensures s.Valid()
    ensures email in afterSave && afterSave[email] == avatar
    ensures email !in afterRemove
    ensures afterRemove == old(s.GetAvatarCache()) - {email}
    ensures email !in old(s.GetAvatarCache()) ==> afterRemove == old(s.GetAvatarCache())
  {
    s.SaveAvatar(email, avatar);
    afterSave := s.GetAvatarCache();
    s.RemoveAvatarFromCache(email);
    afterRemove := s.GetAvatarCache();
  }
}
