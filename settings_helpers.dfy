/**
 * OmiyaGames.Global.Editor.SettingsHelpers (Editor/SettingsHelpers.cs): the
 * asset path of a settings file, and load-or-create of a settings asset.
 *
 * Unity's asset database is a map from asset path to asset plus the set of
 * folders that exist; saving to disk is counted, not performed.
 */
module SettingsHelpers {
  import opened Engine

  /** SettingsHelpers.SettingsDirectory */
  const SettingsDirectory: string := "Assets/Omiya Games/Settings/"

  /** GetFullOmiyaGamesSettingsPath: `fileName` placed in the settings directory. */
  function GetFullOmiyaGamesSettingsPath(fileName: string): (path: string)
    ensures |path| == |SettingsDirectory| + |fileName|
    ensures path[..|SettingsDirectory|] == SettingsDirectory
    ensures path[|SettingsDirectory|..] == fileName
  {
    SettingsDirectory + fileName
  }

  /** Different file names give different asset paths. */
  lemma FullPathIsInjective(a: string, b: string)
    requires GetFullOmiyaGamesSettingsPath(a) == GetFullOmiyaGamesSettingsPath(b)
    ensures a == b
  {
  }

  /** A path is the full settings path of exactly one file name, the part after the directory. */
  lemma FullPathOfSuffix(path: string)
    requires |SettingsDirectory| <= |path| && path[..|SettingsDirectory|] == SettingsDirectory
    ensures GetFullOmiyaGamesSettingsPath(path[|SettingsDirectory|..]) == path
  {
    assert path == path[..|SettingsDirectory|] + path[|SettingsDirectory|..];
  }

  /**
   * The folder part of an asset path: everything up to and including its last
   * '/', or "" when it has none.
   */
  function FolderOf(path: string): (folder: string)
    ensures |folder| <= |path| && folder == path[..|folder|]
    ensures folder != [] ==> folder[|folder| - 1] == '/'
    ensures forall i :: |folder| <= i < |path| ==> path[i] != '/'
    decreases |path|
  {
    if path == [] then []
    else if path[|path| - 1] == '/' then path
    else FolderOf(path[..|path| - 1])
  }

  /** A file name without '/' lands directly in the settings directory. */
  lemma {:induction false} FullPathFolder(fileName: string)
    requires '/' !in fileName
    ensures FolderOf(GetFullOmiyaGamesSettingsPath(fileName)) == SettingsDirectory
    decreases |fileName|
  {
    var path := GetFullOmiyaGamesSettingsPath(fileName);
    if fileName == [] {
      assert path == SettingsDirectory;
    } else {
      var front := fileName[..|fileName| - 1];
      assert path[|path| - 1] == fileName[|fileName| - 1];
      assert path[..|path| - 1] == GetFullOmiyaGamesSettingsPath(front);
      FullPathFolder(front);
    }
  }

  /** A file name with a '/' lands in a folder below the settings directory. */
  lemma FullPathFolderNested(fileName: string)
    requires '/' in fileName
    ensures FolderOf(GetFullOmiyaGamesSettingsPath(fileName)) != SettingsDirectory
  {
    var path := GetFullOmiyaGamesSettingsPath(fileName);
    var i :| 0 <= i < |fileName| && fileName[i] == '/';
    assert path[|SettingsDirectory| + i] == '/';
  }

  /**
   * `AssetDatabase.LoadAssetAtPath<T>(path)` on `assets`, for T named `t`:
   * the asset stored at `path` if it is a T (of class T or derived from it),
   * null otherwise.
   */
  function LoadAt(assets: map<string, ScriptableObject>, path: string, t: TypeName): (r: ScriptableObject?)
    ensures r != null <==> path in assets && assets[path].classType.IsA(t)
    ensures r != null ==> r == assets[path]
  {
    if path in assets && assets[path].classType.IsA(t) then assets[path] else null
  }

  /** The Unity asset database, as far as the settings helpers use it. */
  class AssetDatabase {
    var assets: map<string, ScriptableObject>
    var folders: set<string>
    /** How many times SaveAssets has been called. */
    var saves: nat

    constructor (assets: map<string, ScriptableObject>, folders: set<string>)
      ensures this.assets == assets && this.folders == folders && saves == 0
    {
      this.assets := assets;
      this.folders := folders;
      saves := 0;
    }

    /** `AssetDatabase.LoadAssetAtPath<T>(path)` */
    method LoadAssetAtPath(path: string, t: TypeName) returns (r: ScriptableObject?)
      ensures r == LoadAt(assets, path, t)
    {
      r := LoadAt(assets, path, t);
    }

    /**
     * `AssetDatabase.CreateAsset(asset, path)`: stores `asset` at `path`,
     * replacing what was there, when the path names a file (it does not end in
     * '/' and is not empty) whose folder exists. Otherwise Unity throws and the
     * store is unchanged; `stored` is false for that outcome.
     */
    method CreateAsset(asset: ScriptableObject, path: string) returns (stored: bool)
      modifies this`assets
      ensures stored <==> FolderOf(path) != path && FolderOf(path) in folders
      ensures assets == if stored then old(assets)[path := asset] else old(assets)
    {
      stored := FolderOf(path) != path && FolderOf(path) in folders;
      if stored {
        assets := assets[path := asset];
      }
    }

    /** `AssetHelpers.CreateFolderRecursively(folder)`: afterwards the folder exists. */
    method CreateFolderRecursively(folder: string)
      modifies this`folders
      ensures folders == old(folders) + {folder}
    {
      folders := folders + {folder};
    }

    /** `AssetDatabase.SaveAssets()` */
    method SaveAssets()
      modifies this`saves
      ensures saves == old(saves) + 1
    {
      saves := saves + 1;
    }
  }

  /** Whether CreateAsset succeeds for `fileName` once the settings directory is added to `folders`. */
  predicate Storable(folders: set<string>, fileName: string)
  {
    var path := GetFullOmiyaGamesSettingsPath(fileName);
    FolderOf(path) != path && FolderOf(path) in folders + {SettingsDirectory}
  }

  /** A non-empty file name without '/' can always be stored: its folder is the settings directory. */
  lemma PlainNameIsStorable(folders: set<string>, fileName: string)
    requires fileName != [] && '/' !in fileName
    ensures Storable(folders, fileName)
  {
    FullPathFolder(fileName);
  }

  /** An empty file name, or one ending in '/', names a folder, and no asset can be stored there. */
  lemma FolderNameIsNotStorable(folders: set<string>, fileName: string)
    requires fileName == [] || fileName[|fileName| - 1] == '/'
    ensures !Storable(folders, fileName)
  {
    var path := GetFullOmiyaGamesSettingsPath(fileName);
    assert path[|path| - 1] == '/';
  }

  /**
   * How a settings helper ends: with the settings asset, or with the exception
   * `AssetDatabase.CreateAsset` throws when the asset's folder does not exist,
   * which the helpers do not catch.
   */
  datatype Outcome = Settings(asset: ScriptableObject) | CreateAssetFailed

  /**
   * CreateOmiyaGamesSettings<T>: make sure the settings directory exists, then
   * store a new T at the full path of `fileName` and save. If CreateAsset
   * throws, the save is never reached.
   */
  method CreateOmiyaGamesSettings(db: AssetDatabase, settingsType: ClassType, fileName: string)
    returns (r: Outcome)
    modifies db
    ensures db.folders == old(db.folders) + {SettingsDirectory}
    // the directory exists before the asset goes in, so creation succeeds exactly
    // when the asset's folder is the settings directory or one that already existed
    ensures r.Settings? <==> Storable(old(db.folders), fileName)
    ensures r.Settings? ==>
      && fresh(r.asset) && r.asset.classType == settingsType
      && db.assets == old(db.assets)[GetFullOmiyaGamesSettingsPath(fileName) := r.asset]
      && db.saves == old(db.saves) + 1
    ensures r.CreateAssetFailed? ==> db.assets == old(db.assets) && db.saves == old(db.saves)
    ensures forall p :: p != GetFullOmiyaGamesSettingsPath(fileName) && p in old(db.assets) ==>
      p in db.assets && db.assets[p] == old(db.assets)[p]
  {
    db.CreateFolderRecursively(SettingsDirectory);
    var settings := new ScriptableObject(settingsType);
    var fullAssetPath := GetFullOmiyaGamesSettingsPath(fileName);
    var stored := db.CreateAsset(settings, fullAssetPath);
    if !stored {
      return CreateAssetFailed;
    }
    db.SaveAssets();
    r := Settings(settings);
  }

  /**
   * GetOmiyaGamesSettings<T>: the T stored at the full path of `fileName`,
   * created there first if there is none.
   */
  method GetOmiyaGamesSettings(db: AssetDatabase, settingsType: ClassType, fileName: string)
    returns (r: Outcome)
    modifies db
    // a T already there (of class T or derived from it) is returned and nothing changes
    ensures LoadAt(old(db.assets), GetFullOmiyaGamesSettingsPath(fileName), settingsType.name) != null ==>
      && r == Settings(LoadAt(old(db.assets), GetFullOmiyaGamesSettingsPath(fileName), settingsType.name))
      && db.assets == old(db.assets) && db.folders == old(db.folders) && db.saves == old(db.saves)
    // otherwise a new T is created for exactly that path, which fails when its folder is missing
    ensures LoadAt(old(db.assets), GetFullOmiyaGamesSettingsPath(fileName), settingsType.name) == null ==>
      && db.folders == old(db.folders) + {SettingsDirectory}
      && (r.Settings? <==> Storable(old(db.folders), fileName))
      && (r.Settings? ==>
            && fresh(r.asset) && r.asset.classType == settingsType
            && db.assets == old(db.assets)[GetFullOmiyaGamesSettingsPath(fileName) := r.asset]
            && db.saves == old(db.saves) + 1)
      && (r.CreateAssetFailed? ==> db.assets == old(db.assets) && db.saves == old(db.saves))
    // a returned asset is a T, and the path afterwards loads as it
    ensures r.Settings? ==>
      && r.asset.classType.IsA(settingsType.name)
      && LoadAt(db.assets, GetFullOmiyaGamesSettingsPath(fileName), settingsType.name) == r.asset
  {
    var fullAssetPath := GetFullOmiyaGamesSettingsPath(fileName);
    var settings := db.LoadAssetAtPath(fullAssetPath, settingsType.name);
    if settings == null {
      r := CreateOmiyaGamesSettings(db, settingsType, fileName);
    } else {
      r := Settings(settings);
    }
  }

  /**
   * GetOmiyaGamesSettings is idempotent wherever the asset can be stored (for
   * every non-empty file name without '/', by PlainNameIsStorable): the second call is a
   * pure lookup returning the asset of the first. Where it cannot, both calls fail
   * and the store is untouched.
   */
  method GetOmiyaGamesSettingsTwice(db: AssetDatabase, settingsType: ClassType, fileName: string)
    returns (first: Outcome, second: Outcome)
    modifies db
    ensures Storable(old(db.folders), fileName) ==>
      && first.Settings? && first == second
      && db.assets == old(db.assets)[GetFullOmiyaGamesSettingsPath(fileName) := first.asset]
      && db.saves <= old(db.saves) + 1
    ensures first.CreateAssetFailed? ==>
      && second.CreateAssetFailed?
      && db.assets == old(db.assets) && db.saves == old(db.saves)
  {
    first := GetOmiyaGamesSettings(db, settingsType, fileName);
    second := GetOmiyaGamesSettings(db, settingsType, fileName);
  }
}
