# ExtensionState: workspace and global state of the Git Graph extension

This project models `ExtensionState` (src/extensionState.ts), the store that
the Git Graph extension uses to persist its state. The store sits over two host
key/value stores (VS Code Mementos):

- the **workspace** Memento holds the discovered repository set (`repoStates`),
  the ignored repository list (`ignoredRepos`) and the last active repository
  (`lastActiveRepo`);
- the **global** Memento holds the last known Git executable path
  (`lastKnownGitPath`) and the avatar cache index (`avatarCache`).

The store also keeps a flag, `avatarStorageAvailable`, that says whether the
avatar path `<globalStoragePath>/avatars` could be stat'ed or the avatar
directory could be created.

Modules:

- `Wrappers` (wrappers.dfy): `Option`, which stands for the source's `null`.
- `RepoState` (repo_state.dfy): a stored repository record as a JSON object
  (field name to value), `DEFAULT_REPO_STATE`, `Object.assign`, and the
  per-record defaulting that `getRepos` applies.
- `ExtensionStateStore` (extension_state.dfy): class `ExtensionState`. Each
  Memento is a `map` field that the setters reassign. `Valid()` says that each
  key of the store holds the type its accessors declare. `Memento.get<T>` is an
  unchecked cast in the source; what keeps `Valid()` true is that the typed
  setters are the only writers of these keys. The constructor's `requires`
  is an assumption about the host's initial store. The avatar-directory provisioning
  callbacks are methods that take the outcome of the filesystem call.
- `ExtensionStateClients` (clients.dfy): callers that chain operations and
  state what the sequence promises.

## Model

| member | source | states |
|---|---|---|
| `RepoState.Assign` | src/extensionState.ts:48 | `Object.assign` with one source: the result has the fields of both objects; a field of the source wins, and every other field keeps the target's value |
| `RepoState.Normalize` | src/extensionState.ts:48 | the defaulted record has every field of `DEFAULT_REPO_STATE` and no field outside the defaults and the stored record; a stored field keeps its stored value; a missing field takes the default value |
| `RepoState.NormalizeIdempotent` | src/extensionState.ts:48 | defaulting a record twice gives the same record as defaulting it once |
| `RepoState.NormalizeFixedPoint` | src/extensionState.ts:13-16 | defaulting returns a record unchanged if and only if it already has every default field (`columnWidths`, `showRemoteBranches`) |
| `RepoState.NormalizeEach` | src/extensionState.ts:45-51 | the repository set read back has exactly the stored repository paths; every record in it has all default fields, keeps each stored field and gets the default value for each missing one |
| `RepoState.NormalizeEachIdempotent` | src/extensionState.ts:45-51 | defaulting a whole repository set twice gives the same set as defaulting it once |
| `ExtensionStateStore.ExtensionState.constructor` | src/extensionState.ts:22-40 | the store adopts the host's two Mementos and the base storage path; the availability flag is false when the constructor returns, before provisioning completes |
| `ExtensionStateStore.ExtensionState.OnAvatarDirStat` | src/extensionState.ts:29-32 | when `stat` of the avatar directory succeeds, the flag becomes true and no directory is created; when it fails, the flag is kept and directory creation is requested |
| `ExtensionStateStore.ExtensionState.OnAvatarDirMkdir` | src/extensionState.ts:33-37 | a successful `mkdir` of the avatar directory sets the flag to true; a failed one leaves the flag as it was |
| `ExtensionStateStore.ExtensionState.Provision` | src/extensionState.ts:29-39 | after the provisioning sequence the flag is true exactly when it already was, the avatar path could be stat'ed, or creating the avatar directory succeeded; it never goes from true to false |
| `ExtensionStateStore.ExtensionState.GetRepos` | src/extensionState.ts:45-51 | the loop that overwrites each entry in turn returns the stored repository set with every record defaulted; with nothing stored it returns the empty set |
| `ExtensionStateStore.ExtensionState.StoredRepos` | src/extensionState.ts:46 | get-with-default of `repoStates`: the stored repository set, or the empty set when the key was never written |
| `ExtensionStateStore.ExtensionState.SaveRepos` | src/extensionState.ts:53-55 | overwrites only the `repoStates` key of the workspace Memento with the given set, which is what is read back as stored |
| `ExtensionStateStore.ExtensionState.GetIgnoredRepos` | src/extensionState.ts:60-62 | returns the stored ignored list, or the empty list when the key was never written |
| `ExtensionStateStore.ExtensionState.SetIgnoredRepos` | src/extensionState.ts:64-66 | overwrites only the `ignoredRepos` key; the list read back afterwards is the one written, in the same order, the empty list included |
| `ExtensionStateStore.ExtensionState.GetLastActiveRepo` | src/extensionState.ts:71-73 | returns the stored repository path (or `null`), or `null` when the key was never written |
| `ExtensionStateStore.ExtensionState.SetLastActiveRepo` | src/extensionState.ts:75-77 | overwrites only the `lastActiveRepo` key; the repository path read back afterwards is the one written, `null` included |
| `ExtensionStateStore.ExtensionState.GetLastKnownGitPath` | src/extensionState.ts:82-84 | returns the stored global path, or `null` when the key was never written |
| `ExtensionStateStore.ExtensionState.SetLastKnownGitPath` | src/extensionState.ts:86-88 | overwrites only the `lastKnownGitPath` key of the global Memento; the workspace Memento is unchanged; the path read back afterwards is the one written |
| `ExtensionStateStore.ExtensionState.IsAvatarStorageAvailable` | src/extensionState.ts:93-95 | reports the availability flag, which only the provisioning callbacks change |
| `ExtensionStateStore.ExtensionState.GetAvatarStoragePath` | src/extensionState.ts:97-99 | the avatar directory path is the base storage path followed by `/avatars` |
| `ExtensionStateStore.ExtensionState.GetAvatarCache` | src/extensionState.ts:101-103 | returns the stored avatar index, or the empty index when the key was never written |
| `ExtensionStateStore.ExtensionState.SaveAvatar` | src/extensionState.ts:105-109 | rewrites the whole index with the entry of the given email set to the given avatar; every other entry is unchanged; the workspace Memento is untouched |
| `ExtensionStateStore.ExtensionState.RemoveAvatarFromCache` | src/extensionState.ts:111-115 | rewrites the whole index without the given email; every other entry is unchanged; removing an absent email leaves the index as it was read |
| `ExtensionStateStore.ExtensionState.ClearAvatarCache` | src/extensionState.ts:117-118 | the stored avatar index becomes empty whatever it held; the workspace Memento is untouched |
| `ExtensionStateClients.FreshStoreDefaults` | src/extensionState.ts:22-103 | a store whose Mementos were never written reads back the empty repository set, the empty ignored list, `null` for the last active repository and the Git path, the empty avatar index, and storage unavailable |
| `ExtensionStateClients.ProvisionAfterConstruction` | src/extensionState.ts:22-39 | after construction and provisioning, storage is available exactly when the avatar path could be stat'ed or the avatar directory could be created |
| `ExtensionStateClients.ReposRoundTrip` | src/extensionState.ts:45-55 | `saveRepos(S)` then `getRepos()` returns `S` with every record defaulted, and that result is already fully defaulted |
| `ExtensionStateClients.GitPathLeavesWorkspace` | src/extensionState.ts:60-88 | writing the Git path leaves the repository set, the ignored list and the last active repository as they were |
| `ExtensionStateClients.AvatarSaveThenRemove` | src/extensionState.ts:105-115 | after `saveAvatar(e, a)` the index maps `e` to `a`; after `removeAvatarFromCache(e)`, `e` is gone and the rest of the index is unchanged |

## Left out

- The filesystem calls `fs.stat`, `fs.mkdir`, `fs.readdir` and `fs.unlink` (src/extensionState.ts:29-39, 119-124) are asynchronous callback I/O. Their outcomes are parameters of `OnAvatarDirStat`, `OnAvatarDirMkdir` and `Provision`. The result of `mkdir` on the base directory is ignored by the source, so it does not appear at all.
- The blob deletion in `clearAvatarCache` (src/extensionState.ts:119-124) is not modelled. It lists the avatar directory and unlinks each file, fire-and-forget, swallowing every error. Only the index overwrite at line 118 is modelled.
- `getPathFromStr` (src/extensionState.ts:28) comes from `./utils`, which is not part of this model. The constructor takes the already-converted base storage path as an opaque string.
- `ExtensionContext` and the durability of VS Code's Memento are host library code. Each Memento is an in-memory map with get-with-default and overwrite-one-key.
- Memento aliasing is not modelled. `getRepos` and `saveAvatar` mutate the object returned by `get` before writing (or, in `getRepos`, without writing). Whether that object is the host's own cached copy depends on the Memento implementation. The same holds for `update`: if the host keeps the object it is passed, then after `saveRepos(S)` a later `getRepos()` overwrites the entries of the caller's own `S`. The model treats `get` and `update` as passing values.
- The promise returned by `update` is not modelled, nor the order in which updates and callbacks complete. This covers the value returned by `setIgnoredRepos` (src/extensionState.ts:65).
- The lost-update race between concurrent read-modify-write calls on the avatar index is a concurrency concern and is out of scope.
- `Avatar` is an abstract type, because its definition in `./types` is not part of this model. The same goes for the fields of `GitRepoState` beyond the two defaults; those are arbitrary JSON fields (null, booleans, numbers, strings, arrays and nested objects). JSON numbers are integers here, since floating point is out of scope.
- `RemoveAvatarFromCache`: as in the source, removing an email from a never-written index stores an empty index under `avatarCache`. The index read back is the same either way, so "no-op if absent" holds for what `getAvatarCache` returns, not for the raw Memento.
- The availability flag is a boolean, as in the source. There is no three-state Uninitialized/Available/Unavailable enumeration: "not yet provisioned" and "provisioning failed" both read as `false`.
