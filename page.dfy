/** The home page: it resolves the owner id, lists the owner's files
    through the `getFiles` query, and offers a demo Upload button that
    creates a placeholder file record. */
module Page {
  import opened Wrappers
  import opened FileApi
  import opened Identity

  /** The argument handed to the `getFiles` query hook: the skip sentinel,
      or the owner id to list. */
  datatype FilesQuery = Skip | Query(orgId: string)

  /** The query is skipped for a falsy owner and otherwise issued with
      exactly that owner. */
  function FilesQueryArg(owner: Option<string>): (q: FilesQuery)
    ensures q == Skip <==> !Truthy(owner)
    ensures q.Query? ==> owner == Some(q.orgId) && q.orgId != ""
  {
    if Truthy(owner) then Query(owner.value) else Skip
  }

  /** The `createFile` calls one click on Upload makes: none for a falsy
      owner, otherwise one placeholder record with no file id and no
      kind. */
  function OnUploadClick(owner: Option<string>): (calls: seq<CreateFileArgs>)
    ensures |calls| <= 1
    ensures calls == [] <==> !Truthy(owner)
    ensures calls != [] ==> Truthy(owner) && calls[0] == CreateFileArgs("hello world", None, owner.value, None)
  {
    if !Truthy(owner) then [] else [CreateFileArgs("hello world", None, owner.value, None)]
  }

  /** One rendered entry per file, in query order, showing its name. */
  function FileNames(files: seq<FileDoc>): (names: seq<string>)
    ensures |names| == |files|
    ensures forall i :: 0 <= i < |files| ==> names[i] == files[i].name
  {
    if files == [] then [] else [files[0].name] + FileNames(files[1..])
  }

  /** `files?.map(...)`: nothing while the query result is `undefined`. */
  function Listing(files: Option<seq<FileDoc>>): (names: seq<string>)
    ensures files.None? ==> names == []
    ensures files.Some? ==> |names| == |files.value|
    ensures files.Some? ==> forall i :: 0 <= i < |names| ==> names[i] == files.value[i].name
  {
    if files.Some? then FileNames(files.value) else []
  }

  /** What the page derives from the session hooks and the query: the owner
      id, the query argument and the listed names. */
  datatype HomeView = HomeView(owner: Option<string>, query: FilesQuery, listing: seq<string>)

  /** One render of the page. `served` is what the query hook yields once
      the query is issued (`None` while it is loading); a skipped query
      yields `undefined`. */
  function Home(org: OrganizationHook, user: UserHook, served: Option<seq<FileDoc>>): (view: HomeView)
    ensures view.owner == ResolveOwner(org, user)
    ensures view.query.Skip? <==> !Truthy(view.owner)
    ensures view.query.Query? ==> view.owner == Some(view.query.orgId)
    ensures view.query.Skip? ==> view.listing == []
    ensures served.None? ==> view.listing == []
    ensures view.query.Query? && served.Some? ==>
      |view.listing| == |served.value| &&
      forall i :: 0 <= i < |served.value| ==> view.listing[i] == served.value[i].name
  {
    var owner := ResolveOwner(org, user);
    var query := FilesQueryArg(owner);
    var files := if query.Skip? then None else served;
    HomeView(owner, query, Listing(files))
  }

  /** The listing and the Upload button are guarded alike: the query is
      issued exactly when a click creates a record, and for the same owner. */
  lemma QueryIssuedIffClickCreates(owner: Option<string>)
    ensures FilesQueryArg(owner).Query? <==> |OnUploadClick(owner)| == 1
    ensures FilesQueryArg(owner).Query? ==> OnUploadClick(owner)[0].orgId == FilesQueryArg(owner).orgId
  {
  }
}
