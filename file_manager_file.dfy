/** The file record of the file manager (`App\FileManagerFile`): how it derives
    the URL of a file and of its thumbnail for the configured storage driver,
    how a public-access token decorates those URLs, the document it hands to
    the search index, and the keys its relations join on. */
module App {
  import opened Php

  /** The columns of one stored file row. */
  datatype Attributes = Attributes(
    id: int,                  // internal primary key
    userId: Option<int>,      // owner; null for a file nobody owns
    uniqueId: int,            // the public key every relation uses
    folderId: int,            // the `uniqueId` of the folder holding the file
    thumbnail: Option<string>,
    name: Option<string>,
    basename: Option<string>,
    mimetype: Option<string>,
    filesize: string,         // exact byte count, kept as a string
    fileType: Option<string>, // the `type` column
    userScope: string,
    deletedAt: Option<string>,
    createdAt: string,
    updatedAt: Option<string>)

  /** A folder row, as far as the relations look at it. */
  datatype FileManagerFolder = FileManagerFolder(id: int, uniqueId: int, name: Option<string>)

  /** A share row, as far as the `shared` relation looks at it. */
  datatype Share = Share(id: int, itemId: int, token: string)

  /** The framework services the URL accessors call: the configured default
      disk, the named-route generator, the object store's URL signer and the
      clock. Each is left uninterpreted. */
  datatype Storage = Storage(
    driver: string,
    route: (string, Option<string>) -> string,         // route(name, ['name' => param])
    temporaryUrl: (string, int, map<string, Option<string>>) -> string, // key, expiry, headers
    now: int)                                           // seconds

  /** The text services `toSearchableArray` calls, left uninterpreted:
      `Str::slug(title, separator)`, `TNTIndexer::buildTrigrams` and `utf8_encode`. */
  datatype Indexer = Indexer(
    slug: (Option<string>, string) -> string,
    buildTrigrams: string -> string,
    utf8Encode: string -> string)

  /** The document stored in the search index. */
  datatype SearchDocument = SearchDocument(id: int, name: string, nameNgrams: string)

  /** Drivers served from an S3-compatible object store. */
  const ObjectStoreDrivers: seq<string> := ["s3", "spaces"]

  /** Drivers served from the local disk through application routes. */
  const LocalDrivers: seq<string> := ["local"]

  /** Prefix of every object-store key the record addresses. */
  const KeyPrefix: string := "file-manager/"

  /** Path segment that introduces a public-access token. */
  const PublicSegment: string := "/public/"

  const SecondsPerDay: int := 86400

  /** Names of the response overrides a signed file URL carries. */
  const AcceptRangesHeader: string := "ResponseAcceptRanges"
  const ContentTypeHeader: string := "ResponseContentType"
  const ContentLengthHeader: string := "ResponseContentLength"
  const ContentRangeHeader: string := "ResponseContentRange"
  const ContentDispositionHeader: string := "ResponseContentDisposition"

  /** `is_storage_driver(drivers)`: the configured driver is one of `drivers`. */
  predicate IsStorageDriver(s: Storage, drivers: seq<string>)
    ensures IsStorageDriver(s, drivers) <==> exists i :: 0 <= i < |drivers| && drivers[i] == s.driver
  {
    s.driver in drivers
  }

  /** `now()->addDay()`: an expiry exactly 24 hours after `now`. */
  function AddDay(now: int): (expiry: int)
    ensures now < expiry && expiry - now == 24 * 60 * 60
  {
    now + SecondsPerDay
  }

  /** `'file-manager/' . $value`, with `null` reading as the empty string. */
  function StorageKey(v: Option<string>): (key: string)
    ensures |key| >= |KeyPrefix| && key[..|KeyPrefix|] == KeyPrefix
    ensures key[|KeyPrefix|..] == ConcatString(v)
  {
    KeyPrefix + ConcatString(v)
  }

  /** A local route decorated with the token when the token is truthy:
      `$route . '/public/' . $token`, or `$route` alone. */
  function WithPublicToken(route: string, token: Option<string>): (url: string)
    ensures |route| <= |url| && url[..|route|] == route
    ensures Truthy(token) <==> |url| > |route|
    ensures Truthy(token) ==> url[|route|..] == PublicSegment + token.value
  {
    if Truthy(token) then route + PublicSegment + token.value else route
  }

  /** The token a decorated local URL carries after `route`, if any: the inverse
      of `WithPublicToken`. */
  function PublicTokenOf(route: string, url: string): (t: Option<string>)
  {
    var prefix := route + PublicSegment;
    if |prefix| <= |url| && url[..|prefix|] == prefix then Some(url[|prefix|..]) else None
  }

  /** Decorating a route and reading the token back gives the token when it is
      truthy and nothing when it is not: the route never hides the token and a
      falsy token leaves no trace. */
  lemma PublicTokenRoundTrip(route: string, token: Option<string>)
    ensures PublicTokenOf(route, WithPublicToken(route, token))
         == if Truthy(token) then token else None
  {
  }

  /** Two different truthy tokens never give the same decorated URL. */
  lemma PublicTokenInjective(route: string, t1: Option<string>, t2: Option<string>)
    requires Truthy(t1) && Truthy(t2) && t1 != t2
    ensures WithPublicToken(route, t1) != WithPublicToken(route, t2)
  {
    PublicTokenRoundTrip(route, t1);
    PublicTokenRoundTrip(route, t2);
  }

  /** The response overrides of a signed file URL (FileManagerFile.php:151-157). */
  function DownloadHeaders(a: Attributes): (h: map<string, Option<string>>)
    ensures h.Keys == {AcceptRangesHeader, ContentTypeHeader, ContentLengthHeader,
                       ContentRangeHeader, ContentDispositionHeader}
    ensures h[AcceptRangesHeader] == Some("bytes")
    ensures h[ContentTypeHeader] == a.mimetype
    ensures h[ContentLengthHeader] == Some(a.filesize)
    ensures h[ContentRangeHeader] == Some("bytes 0-600/" + a.filesize)
    ensures h[ContentDispositionHeader]
         == Some("attachment; filename=" + ConcatString(a.name) + "." + ConcatString(a.mimetype))
  {
    map[AcceptRangesHeader := Some("bytes"),
        ContentTypeHeader := a.mimetype,
        ContentLengthHeader := Some(a.filesize),
        ContentRangeHeader := Some("bytes 0-600/" + a.filesize),
        ContentDispositionHeader := Some("attachment; filename=" + ConcatString(a.name)
                                         + "." + ConcatString(a.mimetype))]
  }

  /** One file row together with the public-access token set on this instance. */
  class FileManagerFile {
    var publicAccess: Option<string>
    var attributes: Attributes

    /** A record loaded with `attributes`; no token is set. */
    constructor (attributes: Attributes)
      ensures this.attributes == attributes
      ensures publicAccess == None
    {
      this.attributes := attributes;
      publicAccess := None;
    }

    /** `setPublicUrl($token)`: later URLs of this instance carry `token`. */
    method SetPublicUrl(token: Option<string>)
      modifies this
      ensures publicAccess == token
      ensures attributes == old(attributes)
    {
      publicAccess := token;
    }

    /** The `deleted_at` accessor: null for a record that is not trashed,
        otherwise the formatted timestamp. */
    function DeletedAt(formatDate: string -> string): (r: Option<string>)
      reads this
      ensures r.None? <==> !Truthy(attributes.deletedAt)
      ensures r.Some? ==> r.value == formatDate(attributes.deletedAt.value)
    {
      if !Truthy(attributes.deletedAt) then None
      else Some(formatDate(attributes.deletedAt.value))
    }

    /** The `thumbnail` accessor. */
    function Thumbnail(s: Storage): (r: Option<string>)
      reads this
      ensures r.Some? <==> Truthy(attributes.thumbnail)
                           && (IsStorageDriver(s, ObjectStoreDrivers) || IsStorageDriver(s, LocalDrivers))
      ensures Truthy(attributes.thumbnail) && IsStorageDriver(s, ObjectStoreDrivers) ==>
                r == Some(s.temporaryUrl(KeyPrefix + attributes.thumbnail.value, AddDay(s.now), map[]))
      ensures Truthy(attributes.thumbnail) && !IsStorageDriver(s, ObjectStoreDrivers)
              && IsStorageDriver(s, LocalDrivers) ==>
                var route := s.route("thumbnail", attributes.thumbnail);
                && r.Some? && |route| <= |r.value| && r.value[..|route|] == route
                && (Truthy(publicAccess) ==> r.value[|route|..] == PublicSegment + publicAccess.value)
                && (!Truthy(publicAccess) ==> r.value == route)
    {
      if Truthy(attributes.thumbnail) && IsStorageDriver(s, ObjectStoreDrivers) then
        Some(s.temporaryUrl(StorageKey(attributes.thumbnail), AddDay(s.now), map[]))
      else if Truthy(attributes.thumbnail) && IsStorageDriver(s, LocalDrivers) then
        Some(WithPublicToken(s.route("thumbnail", attributes.thumbnail), publicAccess))
      else
        None
    }

    /** The `file_url` accessor. Object-store drivers are tried before the local
        driver; any other driver gives `null`. */
    function FileUrl(s: Storage): (r: Option<string>)
      reads this
      ensures r.Some? <==> IsStorageDriver(s, ObjectStoreDrivers) || IsStorageDriver(s, LocalDrivers)
      ensures IsStorageDriver(s, ObjectStoreDrivers) ==>
                r == Some(s.temporaryUrl(KeyPrefix + ConcatString(attributes.basename), AddDay(s.now),
                                         DownloadHeaders(attributes)))
      ensures !IsStorageDriver(s, ObjectStoreDrivers) && IsStorageDriver(s, LocalDrivers) ==>
                var route := s.route("file", attributes.basename);
                && r.Some? && |route| <= |r.value| && r.value[..|route|] == route
                && (Truthy(publicAccess) ==> r.value[|route|..] == PublicSegment + publicAccess.value)
                && (!Truthy(publicAccess) ==> r.value == route)
    {
      if IsStorageDriver(s, ObjectStoreDrivers) then
        Some(s.temporaryUrl(StorageKey(attributes.basename), AddDay(s.now), DownloadHeaders(attributes)))
      else if IsStorageDriver(s, LocalDrivers) then
        Some(WithPublicToken(s.route("file", attributes.basename), publicAccess))
      else
        None
    }

    /** `toSearchableArray`: the document the search index stores for this file. */
    function ToSearchableArray(ix: Indexer): (d: SearchDocument)
      reads this
      ensures d.id == attributes.id
      ensures d.name == ix.slug(attributes.name, " ")
      ensures d.nameNgrams == ix.utf8Encode(ix.buildTrigrams(d.name))
    {
      var name := ix.slug(attributes.name, " ");
      SearchDocument(attributes.id, name, ix.utf8Encode(ix.buildTrigrams(Implode(", ", [name]))))
    }

    /** The `parent` relation: the folder whose `uniqueId` is this file's `folderId`. */
    function Parent(folders: seq<FileManagerFolder>): (r: Option<FileManagerFolder>)
      reads this
      ensures r.Some? ==> r.value in folders && r.value.uniqueId == attributes.folderId
      ensures r.None? <==> forall i :: 0 <= i < |folders| ==> folders[i].uniqueId != attributes.folderId
    {
      FirstMatch(folders, (f: FileManagerFolder) => f.uniqueId, attributes.folderId)
    }

    /** The `folder` relation: joins on the same two keys as `parent`. */
    function Folder(folders: seq<FileManagerFolder>): (r: Option<FileManagerFolder>)
      reads this
      ensures r.Some? ==> r.value in folders && r.value.uniqueId == attributes.folderId
      ensures r.None? <==> forall i :: 0 <= i < |folders| ==> folders[i].uniqueId != attributes.folderId
    {
      FirstMatch(folders, (f: FileManagerFolder) => f.uniqueId, attributes.folderId)
    }

    /** The `shared` relation: the share whose `itemId` is this file's `uniqueId`. */
    function Shared(shares: seq<Share>): (r: Option<Share>)
      reads this
      ensures r.Some? ==> r.value in shares && r.value.itemId == attributes.uniqueId
      ensures r.None? <==> forall i :: 0 <= i < |shares| ==> shares[i].itemId != attributes.uniqueId
    {
      FirstMatch(shares, (sh: Share) => sh.itemId, attributes.uniqueId)
    }
  }

  /** A row whose thumbnail is `null`, `""` or `"0"` has no thumbnail URL,
      whatever the driver and whatever token is set. */
  lemma FalsyThumbnailHasNoUrl(f: FileManagerFile, s: Storage)
    requires f.attributes.thumbnail == None || f.attributes.thumbnail == Some("")
             || f.attributes.thumbnail == Some("0")
    ensures f.Thumbnail(s) == None
  {
  }

  /** On an object-store driver the token plays no part: two instances of the
      same row give the same file URL and the same thumbnail URL whatever
      tokens were set on them. */
  lemma ObjectStoreUrlsIgnoreToken(f: FileManagerFile, g: FileManagerFile, s: Storage)
    requires f.attributes == g.attributes
    requires IsStorageDriver(s, ObjectStoreDrivers)
    ensures f.FileUrl(s) == g.FileUrl(s)
    ensures f.Thumbnail(s) == g.Thumbnail(s)
  {
  }

  /** On the local driver the route part of the file URL is the same for every
      token, and the token set on the instance, when truthy, is exactly what
      follows `/public/` after it. */
  lemma LocalFileUrlCarriesToken(f: FileManagerFile, g: FileManagerFile, s: Storage)
    requires f.attributes == g.attributes
    requires !IsStorageDriver(s, ObjectStoreDrivers) && IsStorageDriver(s, LocalDrivers)
    ensures f.FileUrl(s).Some? && g.FileUrl(s).Some?
    ensures var route := s.route("file", f.attributes.basename);
            && f.FileUrl(s).value[..|route|] == route
            && g.FileUrl(s).value[..|route|] == route
            && PublicTokenOf(route, f.FileUrl(s).value)
               == if Truthy(f.publicAccess) then f.publicAccess else None
  {
  }

  /** The same for the thumbnail URL of a row that has a thumbnail. */
  lemma LocalThumbnailCarriesToken(f: FileManagerFile, g: FileManagerFile, s: Storage)
    requires f.attributes == g.attributes && Truthy(f.attributes.thumbnail)
    requires !IsStorageDriver(s, ObjectStoreDrivers) && IsStorageDriver(s, LocalDrivers)
    ensures f.Thumbnail(s).Some? && g.Thumbnail(s).Some?
    ensures var route := s.route("thumbnail", f.attributes.thumbnail);
            && f.Thumbnail(s).value[..|route|] == route
            && g.Thumbnail(s).value[..|route|] == route
            && PublicTokenOf(route, f.Thumbnail(s).value)
               == if Truthy(f.publicAccess) then f.publicAccess else None
  {
  }

  /** The search document depends on the internal `id` and the name only: not
      on `uniqueId`, not on any other column and not on the token. */
  lemma SearchDocumentDependsOnIdAndName(f: FileManagerFile, g: FileManagerFile, ix: Indexer)
    requires f.attributes.id == g.attributes.id && f.attributes.name == g.attributes.name
    ensures f.ToSearchableArray(ix) == g.ToSearchableArray(ix)
  {
  }

  /** A folder whose internal `id` equals the file's `folderId` is never the
      file's parent or folder unless its `uniqueId` does too, whatever other
      folders there are. */
  lemma ParentIgnoresFolderId(f: FileManagerFile, folders: seq<FileManagerFolder>, folder: FileManagerFolder)
    requires folder.id == f.attributes.folderId && folder.uniqueId != f.attributes.folderId
    ensures f.Parent(folders) != Some(folder)
    ensures f.Folder(folders) != Some(folder)
  {
  }
}
