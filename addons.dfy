/**
 * The add-on virtual directory (CAddonsDirectory): how a listing of
 * "addons://<host>/<category>" is composed into a CFileItemList. The host
 * selects the add-ons (enabled, disabled, repositories, the whole database,
 * or one repository's content); an empty category gives one folder per
 * add-on type present; a category keeps only add-ons of that type; every
 * add-on becomes a file item; enabled add-ons with a newer version in the
 * database are flagged; "sources" lists the plugins and scripts providing
 * a content kind.
 *
 * The add-on manager, the add-on database, the type and content name
 * tables and the localized strings are inputs, gathered in `Registry`.
 */
module AddonsDirectory {
  import opened Arith

  /** ADDON::TYPE, in the order of its enumerators. */
  const ADDON_UNKNOWN: nat := 0
  const ADDON_SCRIPT: nat := 4
  const ADDON_PLUGIN: nat := 7
  const ADDON_REPOSITORY: nat := 8
  /** The first type that gets no category folder. */
  const ADDON_VIZ_LIBRARY: nat := 9

  /** CPluginSource::Content. */
  datatype Content = UnknownContent | Audio | Image | Executable | Video

  /** The facts of an add-on the listing uses; `pluginSource` when it is a CPluginSource. */
  datatype Addon = Addon(
    id: string,
    name: string,
    summary: string,
    icon: string,
    fanart: string,
    addonType: nat,
    version: string,
    path: string,
    pluginSource: bool,
    contents: set<Content>)

  datatype FileItem = FileItem(
    path: string,
    isFolder: bool,
    title: string,
    secondLabel: string,
    thumbnail: string,
    icon: string,
    props: map<string, string>)

  /** CFileItem::GetProperty: the empty string for a property never set. */
  function Prop(item: FileItem, key: string): string
  {
    if key in item.props then item.props[key] else ""
  }

  /** A parsed CURL: protocol, host name and file name. */
  datatype Url = Url(protocol: string, host: string, fileName: string)

  /** CURL::Get. */
  function UrlText(u: Url): string
  {
    if u.host == "" then u.protocol + "://" + u.fileName
    else u.protocol + "://" + u.host + "/" + u.fileName
  }

  predicate EndsWithSlash(s: string)
  {
    |s| > 0 && s[|s| - 1] == '/'
  }

  /** CUtil::AddSlashAtEnd. */
  function AddSlashAtEnd(s: string): (r: string)
    ensures EndsWithSlash(r) && |s| <= |r| && r[..|s|] == s
  {
    if EndsWithSlash(s) then s else s + "/"
  }

  /** CUtil::AddFileToFolder on a URL. */
  function AddFileToFolder(folder: string, file: string): string
  {
    if EndsWithSlash(folder) then folder + file else folder + "/" + file
  }

  predicate StartsWith(s: string, prefix: string)
  {
    |prefix| <= |s| && s[..|prefix|] == prefix
  }

  /**
   * The collaborators GetDirectory consults: what the add-on manager and the
   * add-on database report, version comparison, and the name tables.
   */
  datatype Registry = Registry(
    allAddons: bool -> seq<Addon>,
    enabledOfType: nat -> seq<Addon>,
    lookup: string -> Option<Addon>,
    databaseAddons: seq<Addon>,
    databaseRepository: string -> Option<seq<Addon>>,
    grabAddons: string -> seq<Addon>,
    databaseLookup: string -> Option<Addon>,
    newer: (string, string) -> bool,
    localize: nat -> string,
    typeOf: string -> nat,
    typeName: (nat, bool) -> string,
    contentOf: string -> Content)

  // ---------------------------------------------------------------- items

  /** FileItemFromAddon. */
  function FileItemFromAddon(addon: Option<Addon>, base: Url, folder: bool): (r: Option<FileItem>)
    ensures r.None? <==> addon.None?
    ensures r.Some? ==> r.value.isFolder == folder
  {
    match addon
    case None => None
    case Some(a) =>
      var url := base.(fileName := a.id);
      var path := if folder then AddSlashAtEnd(UrlText(url)) else UrlText(url);
      Some(FileItem(path, folder, a.name, a.summary, a.icon, "DefaultAddon.png",
                    map["fanart_image" := a.fanart, "Addon.ID" := a.id, "Addon.Version" := a.version,
                        "Addon.Path" := a.path]))
  }

  /** A folder's path is the add-on's URL with a closing slash; a file's is the URL itself. */
  lemma FileItemFromAddonShape(a: Addon, base: Url, folder: bool)
    ensures var item := FileItemFromAddon(Some(a), base, folder).value;
      var url := UrlText(base.(fileName := a.id));
      (folder ==> EndsWithSlash(item.path) && StartsWith(item.path, url)) &&
      (!folder ==> item.path == url) &&
      item.title == a.name && item.icon == "DefaultAddon.png" &&
      Prop(item, "Addon.ID") == a.id && Prop(item, "Addon.Version") == a.version &&
      Prop(item, "Addon.Path") == a.path
  {
  }

  const ADDONS_ROOT: Url := Url("addons", "", "")
  const LOCAL_ADDONS: string := "special://xbmc/addons/"

  /** The item GenerateListing emits for one add-on; repositories are folders under addons://. */
  function ListingItem(a: Addon, url: Url, reg: Registry): FileItem
  {
    var repo := a.addonType == ADDON_REPOSITORY;
    var base := if repo then ADDONS_ROOT else url;
    var plain := FileItemFromAddon(Some(a), base, repo).value;
    if reg.lookup(a.id).Some? then plain.(props := plain.props["Addon.Status" := reg.localize(305)])
    else if StartsWith(Prop(plain, "Addon.Path"), LOCAL_ADDONS) then
      plain.(props := plain.props["Addon.Status" := reg.localize(24095)])
    else plain
  }

  /** The item for one add-on: a repository is a folder under addons://, anything else a file under the listed path. */
  lemma ListingItemShape(a: Addon, url: Url, reg: Registry)
    ensures var item := ListingItem(a, url, reg);
      (item.isFolder <==> a.addonType == ADDON_REPOSITORY) &&
      item.title == a.name && Prop(item, "Addon.ID") == a.id && Prop(item, "Addon.Version") == a.version &&
      (item.isFolder ==> StartsWith(item.path, "addons://" + a.id) && EndsWithSlash(item.path)) &&
      (!item.isFolder ==> item.path == UrlText(url.(fileName := a.id))) &&
      "Addon.UpdateAvail" !in item.props
  {
    assert UrlText(ADDONS_ROOT.(fileName := a.id)) == "addons://" + a.id;
    FileItemFromAddonShape(a, if a.addonType == ADDON_REPOSITORY then ADDONS_ROOT else url, a.addonType == ADDON_REPOSITORY);
  }

  function Listing(addons: seq<Addon>, url: Url, reg: Registry): seq<FileItem>
  {
    if addons == [] then []
    else Listing(addons[..|addons| - 1], url, reg) + [ListingItem(addons[|addons| - 1], url, reg)]
  }

  /** One item per add-on, in the add-ons' order. */
  lemma {:induction false} ListingShape(addons: seq<Addon>, url: Url, reg: Registry)
    ensures |Listing(addons, url, reg)| == |addons|
    ensures forall i :: 0 <= i < |addons| ==> Listing(addons, url, reg)[i] == ListingItem(addons[i], url, reg)
  {
    if addons != [] {
      var init := addons[..|addons| - 1];
      ListingShape(init, url, reg);
      var items := Listing(addons, url, reg);
      var last := ListingItem(addons[|addons| - 1], url, reg);
      assert items == Listing(init, url, reg) + [last];
      forall i | 0 <= i < |addons|
        ensures items[i] == ListingItem(addons[i], url, reg)
      {
        if i < |init| {
          assert init[i] == addons[i];
          assert items[i] == Listing(init, url, reg)[i];
        } else {
          assert items[i] == last;
        }
      }
    }
  }

  /** The update check on one item of the "enabled" listing. */
  function Flagged(item: FileItem, reg: Registry): (r: FileItem)
    ensures Prop(r, "Addon.UpdateAvail") == "true" <==> UpdateAvailable(item, reg) || Prop(item, "Addon.UpdateAvail") == "true"
    ensures Prop(r, "Addon.ID") == Prop(item, "Addon.ID") && r.path == item.path && r.isFolder == item.isFolder
  {
    var latest := reg.databaseLookup(Prop(item, "Addon.ID"));
    if latest.Some? && reg.newer(latest.value.version, Prop(item, "Addon.Version")) then
      item.(props := item.props["Addon.Status" := reg.localize(24068)]["Addon.UpdateAvail" := "true"])
    else item
  }

  /** An update is available: the database has a newer version of the item's add-on. */
  predicate UpdateAvailable(item: FileItem, reg: Registry)
  {
    var latest := reg.databaseLookup(Prop(item, "Addon.ID"));
    latest.Some? && reg.newer(latest.value.version, Prop(item, "Addon.Version"))
  }

  function UpdateFlags(items: seq<FileItem>, reg: Registry): seq<FileItem>
  {
    seq(|items|, i requires 0 <= i < |items| => Flagged(items[i], reg))
  }

  /** The listed items never carry the update flag, so after the check it marks exactly the outdated ones. */
  lemma FlagsExactlyUpdates(addons: seq<Addon>, url: Url, reg: Registry)
    ensures var listed := Listing(addons, url, reg);
      var flagged := UpdateFlags(listed, reg);
      |flagged| == |addons| &&
      forall i :: 0 <= i < |flagged| ==>
        (Prop(flagged[i], "Addon.UpdateAvail") == "true" <==> UpdateAvailable(listed[i], reg)) &&
        Prop(flagged[i], "Addon.ID") == addons[i].id
  {
    ListingShape(addons, url, reg);
    var listed := Listing(addons, url, reg);
    var flagged := UpdateFlags(listed, reg);
    forall i | 0 <= i < |flagged|
      ensures Prop(flagged[i], "Addon.UpdateAvail") == "true" <==> UpdateAvailable(listed[i], reg)
      ensures Prop(flagged[i], "Addon.ID") == addons[i].id
    {
      assert flagged[i] == Flagged(listed[i], reg);
      assert listed[i] == ListingItem(addons[i], url, reg);
      ListingItemShape(addons[i], url, reg);
    }
  }

  /** The folder for add-on type `t` at the directory root. */
  function CategoryItem(t: nat, strPath: string, reg: Registry): FileItem
  {
    FileItem(AddFileToFolder(strPath, reg.typeName(t, false)), true, reg.typeName(t, true), "", "", "", map[])
  }

  predicate HasType(addons: seq<Addon>, t: nat)
  {
    exists j :: 0 <= j < |addons| && addons[j].addonType == t
  }

  /** Types between ADDON_UNKNOWN and `hi` that some add-on has, ascending. */
  function CategoryTypes(addons: seq<Addon>, hi: nat): seq<nat>
  {
    if hi <= ADDON_UNKNOWN + 1 then []
    else CategoryTypes(addons, hi - 1) + (if HasType(addons, hi - 1) then [hi - 1] else [])
  }

  function CategoryFolders(types: seq<nat>, strPath: string, reg: Registry): seq<FileItem>
  {
    if types == [] then []
    else CategoryFolders(types[..|types| - 1], strPath, reg) + [CategoryItem(types[|types| - 1], strPath, reg)]
  }

  /**
   * The root folders: a type is listed exactly when it lies strictly between
   * ADDON_UNKNOWN and the bound and some add-on has it, and the types are in
   * strictly ascending order, so none twice.
   */
  lemma {:induction false} CategoryTypesMeans(addons: seq<Addon>, hi: nat)
    ensures var ts := CategoryTypes(addons, hi);
      (forall t :: t in ts <==> ADDON_UNKNOWN < t < hi && HasType(addons, t)) &&
      (forall a, b :: 0 <= a < b < |ts| ==> ts[a] < ts[b]) &&
      (forall a :: 0 <= a < |ts| ==> ts[a] < hi)
  {
    if hi > ADDON_UNKNOWN + 1 {
      CategoryTypesMeans(addons, hi - 1);
    }
  }

  /** Add-ons of type `t`, in their original order. */
  function OfType(addons: seq<Addon>, t: nat): seq<Addon>
  {
    if addons == [] then []
    else OfType(addons[..|addons| - 1], t) +
         (if addons[|addons| - 1].addonType == t then [addons[|addons| - 1]] else [])
  }

  /** The filter keeps an add-on exactly when it has the type. */
  lemma {:induction false} OfTypeMeans(addons: seq<Addon>, t: nat)
    ensures var r := OfType(addons, t);
      |r| <= |addons| &&
      (forall i :: 0 <= i < |r| ==> r[i].addonType == t) &&
      (forall a :: a in r <==> a in addons && a.addonType == t)
  {
    if addons != [] {
      var init := addons[..|addons| - 1];
      OfTypeMeans(init, t);
      assert addons == init + [addons[|addons| - 1]];
    }
  }

  /** Keeping all add-ons of the type that already have it changes nothing. */
  lemma {:induction false} OfTypeIdempotent(addons: seq<Addon>, t: nat)
    ensures OfType(OfType(addons, t), t) == OfType(addons, t)
  {
    if addons != [] {
      var init := addons[..|addons| - 1];
      OfTypeIdempotent(init, t);
      var last := addons[|addons| - 1];
      var once := OfType(addons, t);
      if last.addonType == t {
        assert once == OfType(init, t) + [last];
        assert once[..|once| - 1] == OfType(init, t);
        assert once[|once| - 1] == last;
      } else {
        assert once == OfType(init, t);
      }
    }
  }

  /** The items for the add-ons that are plugin sources providing `content`. */
  function Providers(addons: seq<Addon>, content: Content, base: Url, folder: bool): seq<FileItem>
  {
    if addons == [] then []
    else
      var a := addons[|addons| - 1];
      Providers(addons[..|addons| - 1], content, base, folder) +
      (if a.pluginSource && content in a.contents then [FileItemFromAddon(Some(a), base, folder).value] else [])
  }

  lemma ProvidersStep(addons: seq<Addon>, i: nat, content: Content, base: Url, folder: bool)
    requires i < |addons|
    ensures var a := addons[i];
      var before := Providers(addons[..i], content, base, folder);
      (a.pluginSource && content in a.contents ==>
         Providers(addons[..i + 1], content, base, folder) == before + [FileItemFromAddon(Some(a), base, folder).value]) &&
      (!(a.pluginSource && content in a.contents) ==> Providers(addons[..i + 1], content, base, folder) == before)
  {
    assert addons[..i + 1][..i] == addons[..i];
  }

  lemma {:induction false} ProvidersShape(addons: seq<Addon>, content: Content, base: Url, folder: bool)
    ensures var r := Providers(addons, content, base, folder);
      |r| <= |addons| && forall i :: 0 <= i < |r| ==> r[i].isFolder == folder
  {
    if addons != [] {
      ProvidersShape(addons[..|addons| - 1], content, base, folder);
    }
  }

  const PLUGIN_ROOT: Url := Url("plugin", "", "")
  const SCRIPT_ROOT: Url := Url("script", "", "")

  function MoreItem(reg: Registry): FileItem
  {
    FileItem("addons://more", false, reg.localize(21452), "", "DefaultAddon.png", "", map[])
  }

  function AllItem(reg: Registry): FileItem
  {
    FileItem("addons://all/", true, reg.localize(24032), "", "", "", map[])
  }

  // ---------------------------------------------------------------- the item list

  datatype ListState = ListState(items: seq<FileItem>, props: map<string, string>, path: string)

  /** GetScriptsAndPlugins: what it returns and the list it leaves. */
  function ScriptsAndPlugins(s: ListState, content: string, reg: Registry): (bool, ListState)
  {
    var cleared := s.(items := [], props := map[]);
    var kind := reg.contentOf(content);
    if kind == UnknownContent then (false, cleared)
    else
      var found := Providers(reg.enabledOfType(ADDON_PLUGIN), kind, PLUGIN_ROOT, true) +
                   Providers(reg.enabledOfType(ADDON_SCRIPT), kind, SCRIPT_ROOT, false);
      (true, cleared.(items := if found == [] then [MoreItem(reg)] else found))
  }

  /**
   * Only unknown content fails; otherwise plugin folders come before script
   * files, and a kind nobody provides gets the single "addons://more" item.
   */
  lemma ScriptsAndPluginsOutcome(s: ListState, content: string, reg: Registry)
    ensures var (ok, t) := ScriptsAndPlugins(s, content, reg);
      (ok <==> reg.contentOf(content) != UnknownContent) &&
      (ok ==> |t.items| >= 1) &&
      (!ok ==> t.items == []) &&
      (ok ==> var kind := reg.contentOf(content);
              var plugins := Providers(reg.enabledOfType(ADDON_PLUGIN), kind, PLUGIN_ROOT, true);
              var scripts := Providers(reg.enabledOfType(ADDON_SCRIPT), kind, SCRIPT_ROOT, false);
              (plugins + scripts == [] ==> t.items == [MoreItem(reg)]) &&
              (plugins + scripts != [] ==>
                 t.items == plugins + scripts &&
                 (forall i :: 0 <= i < |plugins| ==> t.items[i].isFolder) &&
                 (forall i :: |plugins| <= i < |t.items| ==> !t.items[i].isFolder)))
  {
    var kind := reg.contentOf(content);
    ProvidersShape(reg.enabledOfType(ADDON_PLUGIN), kind, PLUGIN_ROOT, true);
    ProvidersShape(reg.enabledOfType(ADDON_SCRIPT), kind, SCRIPT_ROOT, false);
  }

  /** The add-ons a host lists and the "reponame" it sets; None for an unknown add-on id. */
  datatype Source = Source(addons: seq<Addon>, repoName: Option<string>)

  function SourceFor(host: string, reg: Registry): Option<Source>
  {
    if host == "enabled" || host == "disabled" then
      Some(Source(reg.allAddons(host == "enabled"), Some(reg.localize(24062))))
    else if host == "repos" then Some(Source(reg.enabledOfType(ADDON_REPOSITORY), None))
    else if host == "all" then Some(Source(reg.databaseAddons, Some(reg.localize(24032))))
    else match reg.lookup(host)
      case None => None
      case Some(a) =>
        var content := reg.databaseRepository(a.id);
        Some(Source(if content.Some? then content.value else reg.grabAddons(a.id), Some(a.name)))
  }

  /** The listing below the root: the filtered add-ons as items, update flags, the closing "all" folder. */
  function Composed(addons: seq<Addon>, url: Url, reg: Registry): seq<FileItem>
  {
    var listed := Listing(addons, url, reg);
    var flagged := if url.host == "enabled" then UpdateFlags(listed, reg) else listed;
    if url.host == "repos" then flagged + [AllItem(reg)] else flagged
  }

  /** GetDirectory(strPath) on the list state `s`, `url` being strPath parsed without its closing slash. */
  function Directory(s: ListState, strPath: string, url: Url, reg: Registry): (bool, ListState)
  {
    var s0 := s.(props := map[]);
    if url.host == "sources" then ScriptsAndPlugins(s0, url.fileName, reg)
    else match SourceFor(url.host, reg)
      case None => (false, s0)
      case Some(src) =>
        var s1 := if src.repoName.Some? then s0.(props := s0.props["reponame" := src.repoName.value]) else s0;
        if url.fileName == "" && url.host != "repos" then
          (true, s1.(items := s1.items + CategoryFolders(CategoryTypes(src.addons, ADDON_VIZ_LIBRARY), strPath, reg),
                     path := strPath))
        else if url.fileName == "" then
          (true, s1.(items := Composed(src.addons, url, reg), path := strPath))
        else
          var t := reg.typeOf(url.fileName);
          (true, s1.(items := Composed(OfType(src.addons, t), url, reg),
                     props := s1.props["addoncategory" := reg.typeName(t, true)], path := strPath))
  }

  /** A host that names no known add-on fails and leaves only the properties cleared. */
  lemma UnknownHostFails(s: ListState, strPath: string, url: Url, reg: Registry)
    requires url.host !in {"enabled", "disabled", "repos", "sources", "all"} && reg.lookup(url.host).None?
    ensures Directory(s, strPath, url, reg) == (false, s.(props := map[]))
  {
  }

  /** A category lists exactly the add-ons of its type, in order, one item each. */
  lemma CategoryListsItsType(s: ListState, strPath: string, url: Url, reg: Registry)
    requires url.host !in {"sources", "enabled", "repos"} && url.fileName != ""
    requires SourceFor(url.host, reg).Some?
    ensures var (ok, t) := Directory(s, strPath, url, reg);
      var kept := OfType(SourceFor(url.host, reg).value.addons, reg.typeOf(url.fileName));
      ok && t.items == Listing(kept, url, reg) && |t.items| == |kept| &&
      (forall i :: 0 <= i < |kept| ==> kept[i].addonType == reg.typeOf(url.fileName)) &&
      t.props["addoncategory"] == reg.typeName(reg.typeOf(url.fileName), true)
  {
    var kept := OfType(SourceFor(url.host, reg).value.addons, reg.typeOf(url.fileName));
    OfTypeMeans(SourceFor(url.host, reg).value.addons, reg.typeOf(url.fileName));
    ListingShape(kept, url, reg);
  }

  /** The repository list ends with the "addons://all/" folder after one item per repository. */
  lemma ReposEndWithAll(s: ListState, strPath: string, url: Url, reg: Registry)
    requires url.host == "repos"
    ensures var (ok, t) := Directory(s, strPath, url, reg);
      ok && |t.items| >= 1 && t.items[|t.items| - 1] == AllItem(reg) &&
      t.items[|t.items| - 1].path == "addons://all/" && t.items[|t.items| - 1].isFolder
  {
  }

  /** At the root of a host other than "repos", existing items are kept and the category folders follow. */
  lemma RootListsCategories(s: ListState, strPath: string, url: Url, reg: Registry)
    requires url.host !in {"sources", "repos"} && url.fileName == ""
    requires SourceFor(url.host, reg).Some?
    ensures var (ok, t) := Directory(s, strPath, url, reg);
      var ts := CategoryTypes(SourceFor(url.host, reg).value.addons, ADDON_VIZ_LIBRARY);
      ok && t.items == s.items + CategoryFolders(ts, strPath, reg) &&
      (forall x :: x in ts <==> ADDON_UNKNOWN < x < ADDON_VIZ_LIBRARY &&
                                HasType(SourceFor(url.host, reg).value.addons, x)) &&
      (forall a, b :: 0 <= a < b < |ts| ==> ts[a] < ts[b])
  {
    CategoryTypesMeans(SourceFor(url.host, reg).value.addons, ADDON_VIZ_LIBRARY);
  }

  class FileItemList {
    var items: seq<FileItem>
    var properties: map<string, string>
    var path: string

    function State(): ListState
      reads this
    {
      ListState(items, properties, path)
    }

    constructor ()
      ensures items == [] && properties == map[] && path == ""
    {
      items, properties, path := [], map[], "";
    }

    method Add(item: FileItem)
      modifies this
      ensures State() == old(State()).(items := old(items) + [item])
    {
      items := items + [item];
    }

    method SetProperty(key: string, value: string)
      modifies this
      ensures State() == old(State()).(props := old(properties)[key := value])
    {
      properties := properties[key := value];
    }
  }

  lemma CategoryTypesStep(addons: seq<Addon>, t: nat)
    requires t > ADDON_UNKNOWN
    ensures HasType(addons, t) ==> CategoryTypes(addons, t + 1) == CategoryTypes(addons, t) + [t]
    ensures !HasType(addons, t) ==> CategoryTypes(addons, t + 1) == CategoryTypes(addons, t)
  {
  }

  lemma CategoryFoldersSnoc(ts: seq<nat>, t: nat, strPath: string, reg: Registry)
    ensures CategoryFolders(ts + [t], strPath, reg) == CategoryFolders(ts, strPath, reg) + [CategoryItem(t, strPath, reg)]
  {
    assert (ts + [t])[..|ts|] == ts;
  }

  /** The inner loop of the root listing: the first add-on of type `t`, or |addons| when there is none. */
  method FindType(addons: seq<Addon>, t: nat) returns (j: nat)
    ensures j <= |addons|
    ensures j < |addons| <==> HasType(addons, t)
    ensures j < |addons| ==> addons[j].addonType == t
  {
    j := 0;
    while j < |addons| && addons[j].addonType != t
      invariant j <= |addons|
      invariant forall k :: 0 <= k < j ==> addons[k].addonType != t
    {
      j := j + 1;
    }
  }

  /** The nested loops of GetDirectory at a host's root: one folder per type present, in type order. */
  method AddCategoryFolders(list: FileItemList, strPath: string, addons: seq<Addon>, reg: Registry)
    modifies list
    ensures list.items == old(list.items) + CategoryFolders(CategoryTypes(addons, ADDON_VIZ_LIBRARY), strPath, reg)
    ensures list.properties == old(list.properties) && list.path == old(list.path)
  {
    for i := ADDON_UNKNOWN + 1 to ADDON_VIZ_LIBRARY
      invariant list.items == old(list.items) + CategoryFolders(CategoryTypes(addons, i), strPath, reg)
      invariant list.properties == old(list.properties) && list.path == old(list.path)
    {
      var j := FindType(addons, i);
      ghost var ts := CategoryTypes(addons, i);
      CategoryTypesStep(addons, i);
      if j < |addons| {
        CategoryFoldersSnoc(ts, i, strPath, reg);
        list.Add(CategoryItem(i, strPath, reg));
      }
    }
  }

  /** The erase loop: drops every add-on not of type `t`, stepping back after each erase. */
  method FilterByType(addons: seq<Addon>, t: nat) returns (kept: seq<Addon>)
    ensures kept == OfType(addons, t)
  {
    kept := addons;
    var j: nat := 0;
    ghost var k: nat := 0;
    while j < |kept|
      invariant j <= |kept| && k <= |addons|
      invariant kept[..j] == OfType(addons[..k], t)
      invariant kept[j..] == addons[k..]
      decreases |kept| - j
    {
      assert addons[..k + 1][..k] == addons[..k];
      assert kept[j] == addons[k];
      if kept[j].addonType != t {
        kept := kept[..j] + kept[j + 1..];
      } else {
        j := j + 1;
      }
      k := k + 1;
    }
    assert addons[..k] == addons;
    assert kept[..j] == kept;
  }

  /** GenerateListing: the list is emptied, then one item per add-on. */
  method GenerateListing(list: FileItemList, url: Url, addons: seq<Addon>, reg: Registry)
    modifies list
    ensures list.State() == old(list.State()).(items := Listing(addons, url, reg))
  {
    list.items := [];
    for i := 0 to |addons|
      invariant list.State() == old(list.State()).(items := Listing(addons[..i], url, reg))
    {
      assert addons[..i + 1][..i] == addons[..i];
      var a := addons[i];
      var base := if a.addonType == ADDON_REPOSITORY then ADDONS_ROOT else url;
      var item := FileItemFromAddon(Some(a), base, a.addonType == ADDON_REPOSITORY).value;
      if reg.lookup(a.id).Some? {
        item := item.(props := item.props["Addon.Status" := reg.localize(305)]);
      } else if StartsWith(Prop(item, "Addon.Path"), LOCAL_ADDONS) {
        item := item.(props := item.props["Addon.Status" := reg.localize(24095)]);
      }
      list.Add(item);
    }
    assert addons[..|addons|] == addons;
  }

  /** The update check over the "enabled" listing, item by item in place. */
  method FlagUpdates(list: FileItemList, reg: Registry)
    modifies list
    ensures list.State() == old(list.State()).(items := UpdateFlags(old(list.items), reg))
  {
    ghost var orig := list.items;
    for i := 0 to |list.items|
      invariant |list.items| == |orig|
      invariant list.State() == old(list.State()).(items := list.items)
      invariant forall k :: 0 <= k < i ==> list.items[k] == Flagged(orig[k], reg)
      invariant forall k :: i <= k < |orig| ==> list.items[k] == orig[k]
    {
      var item := list.items[i];
      var latest := reg.databaseLookup(Prop(item, "Addon.ID"));
      if latest.Some? && reg.newer(latest.value.version, Prop(item, "Addon.Version")) {
        item := item.(props := item.props["Addon.Status" := reg.localize(24068)]["Addon.UpdateAvail" := "true"]);
        list.items := list.items[i := item];
      }
    }
  }

  /** One loop of GetScriptsAndPlugins: the add-ons providing `kind`, appended. */
  method AddProviders(list: FileItemList, addons: seq<Addon>, kind: Content, base: Url, folder: bool)
    modifies list
    ensures list.State() == old(list.State()).(items := old(list.items) + Providers(addons, kind, base, folder))
  {
    for i := 0 to |addons|
      invariant list.items == old(list.items) + Providers(addons[..i], kind, base, folder)
      invariant list.properties == old(list.properties) && list.path == old(list.path)
    {
      ProvidersStep(addons, i, kind, base, folder);
      if !addons[i].pluginSource || kind !in addons[i].contents {
        continue;
      }
      list.Add(FileItemFromAddon(Some(addons[i]), base, folder).value);
    }
    assert addons[..|addons|] == addons;
  }

  method GetScriptsAndPlugins(list: FileItemList, content: string, reg: Registry) returns (ok: bool)
    modifies list
    ensures (ok, list.State()) == ScriptsAndPlugins(old(list.State()), content, reg)
  {
    ghost var before := list.State();
    list.items, list.properties := [], map[];
    var kind := reg.contentOf(content);
    if kind == UnknownContent {
      assert list.State() == ScriptsAndPlugins(before, content, reg).1;
      return false;
    }
    ghost var plugins := Providers(reg.enabledOfType(ADDON_PLUGIN), kind, PLUGIN_ROOT, true);
    ghost var scripts := Providers(reg.enabledOfType(ADDON_SCRIPT), kind, SCRIPT_ROOT, false);
    AddProviders(list, reg.enabledOfType(ADDON_PLUGIN), kind, PLUGIN_ROOT, true);
    assert list.items == plugins;
    AddProviders(list, reg.enabledOfType(ADDON_SCRIPT), kind, SCRIPT_ROOT, false);
    assert list.State() == before.(items := plugins + scripts, props := map[]);
    if |list.items| == 0 {
      list.Add(MoreItem(reg));
    }
    ok := |list.items| > 0;
    assert ok;
    assert list.State() == ScriptsAndPlugins(before, content, reg).1;
  }

  /** The listing below the root of a host: GenerateListing, then the update check and the "all" folder. */
  method ComposeListing(list: FileItemList, url: Url, addons: seq<Addon>, reg: Registry)
    modifies list
    ensures list.State() == old(list.State()).(items := Composed(addons, url, reg))
  {
    GenerateListing(list, url, addons, reg);
    if url.host == "enabled" {
      FlagUpdates(list, reg);
    }
    if url.host == "repos" {
      list.Add(AllItem(reg));
    }
  }

  method GetDirectory(list: FileItemList, strPath: string, url: Url, reg: Registry) returns (ok: bool)
    modifies list
    ensures (ok, list.State()) == Directory(old(list.State()), strPath, url, reg)
  {
    list.properties := map[];
    if url.host == "sources" {
      ok := GetScriptsAndPlugins(list, url.fileName, reg);
      return;
    }
    var src := SourceFor(url.host, reg);
    if src.None? {
      return false;
    }
    if src.value.repoName.Some? {
      list.SetProperty("reponame", src.value.repoName.value);
    }
    var addons := src.value.addons;
    if url.fileName == "" {
      if url.host != "repos" {
        AddCategoryFolders(list, strPath, addons, reg);
        list.path := strPath;
        return true;
      }
    } else {
      var t := reg.typeOf(url.fileName);
      list.SetProperty("addoncategory", reg.typeName(t, true));
      addons := FilterByType(addons, t);
    }
    list.path := strPath;
    ComposeListing(list, url, addons, reg);
    ok := true;
  }
}
