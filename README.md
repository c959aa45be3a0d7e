# File record URL derivation and search document

A model of the file record `App\FileManagerFile` of a Laravel file manager:

- the public-access token an instance can carry (`setPublicUrl`),
- the `thumbnail` and `file_url` accessors, which build either a signed
  object-store URL (drivers `s3` and `spaces`) or a local application route,
  decorated with `/public/<token>` when a truthy token is set,
- the `deleted_at` accessor's null case,
- the document `toSearchableArray` hands to the search index,
- the join keys of the `parent`, `folder` and `shared` relations.

The record is a class `App.FileManagerFile` with two fields: the token
`publicAccess` and the row's columns `attributes` (a datatype). The accessors
are functions that read the instance. PHP's `null` is `Php.Option.None`.
PHP truthiness of a nullable string is `Php.Truthy`: `null`, `""` and `"0"` are
false. Inside `.` concatenation, `null` reads as `""` (`Php.ConcatString`).

The framework services are left uninterpreted. They are function-valued fields
of two datatypes, passed to the accessors as parameters:

- `App.Storage` holds the configured default driver, the named-route
  generator `route(name, ['name' => param])`, the signer
  `Storage::temporaryUrl(key, expiry, headers)` and the clock `now()` in seconds.
- `App.Indexer` holds `Str::slug`, `TNTIndexer::buildTrigrams` and `utf8_encode`.

`format_date` (with its locale) is a parameter of `DeletedAt`.

Two behaviours of the code worth noting:

- An unrecognised driver is not an error. `getFileUrlAttribute` falls off its
  end at line 173 and returns `null`, and `getThumbnailAttribute` returns `null`.
- The token is a mutable field of the instance, set by `SetPublicUrl`.

## Model

| member | source | states |
|---|---|---|
| `Php.ConcatString` | app/FileManagerFile.php:156 | a `null` column contributes the empty string to a concatenation, a string contributes itself |
| `Php.Truthy` | app/FileManagerFile.php:120-131 | PHP truthiness of a nullable string, as tested at lines 97, 120, 126, 131 and 167: `null`, `""` and `"0"` are false, every other string is true |
| `Php.Implode` | app/FileManagerFile.php:188 | `implode(glue, pieces)`: an empty list gives `""`, a one-piece list gives that piece whatever the glue, a longer list starts with its first piece and the glue |
| `App.IsStorageDriver` | app/FileManagerFile.php:149-163 | `is_storage_driver(list)`, as called at lines 120, 126, 149 and 163: true exactly when the configured driver is one of the list's entries |
| `App.AddDay` | app/FileManagerFile.php:122-159 | `now()->addDay()`, as used at lines 122 and 159: the expiry is exactly 24 hours after now |
| `Php.FirstMatch` | app/FileManagerFile.php:197-220 | a relation lookup gives `null` exactly when no row has the key; otherwise it gives a row with that key, the first such row |
| `App.StorageKey` | app/FileManagerFile.php:159 | an object-store key starts with `file-manager/` and the rest is the column's string value |
| `App.WithPublicToken` | app/FileManagerFile.php:165-171 | the decorated URL always starts with the route; it is longer than the route exactly when the token is truthy, and then the rest is `/public/` + token |
| `App.PublicTokenRoundTrip` | app/FileManagerFile.php:131-135 | reading the text after `route + "/public/"` of a decorated URL gives back the token when it is truthy, and nothing when it is falsy |
| `App.PublicTokenInjective` | app/FileManagerFile.php:167-168 | two different truthy tokens never give the same URL for one route |
| `App.DownloadHeaders` | app/FileManagerFile.php:151-157 | the signed file URL carries exactly five overrides: accept-ranges `bytes`, content type = mimetype, content length = filesize, range `bytes 0-600/<filesize>`, disposition `attachment; filename=<name>.<mimetype>` |
| `App.FileManagerFile.constructor` | app/FileManagerFile.php:60 | a freshly loaded record holds its row and no token |
| `App.FileManagerFile.SetPublicUrl` | app/FileManagerFile.php:75-78 | the token becomes the given value and no column changes |
| `App.FileManagerFile.DeletedAt` | app/FileManagerFile.php:95-100 | `null` exactly when `deleted_at` is falsy; otherwise the formatted timestamp |
| `App.FileManagerFile.Thumbnail` | app/FileManagerFile.php:117-139 | a URL exists exactly when the thumbnail is truthy and the driver is known; object store: signed key `file-manager/<thumbnail>`, expiry now + 1 day, no overrides; local: the thumbnail route, then `/public/<token>` only for a truthy token |
| `App.FileManagerFile.FileUrl` | app/FileManagerFile.php:146-173 | a URL exists exactly when the driver is known; object store is checked first: signed key `file-manager/<basename>`, expiry now + 1 day, the download overrides; local: the file route, then `/public/<token>` only for a truthy token |
| `App.FileManagerFile.ToSearchableArray` | app/FileManagerFile.php:180-190 | the document's id is the internal `id`; its name is `slug(name, ' ')`; its n-grams are `utf8_encode(buildTrigrams(slug))` |
| `App.FileManagerFile.Parent` | app/FileManagerFile.php:197-200 | the parent is a folder whose `unique_id` equals the file's `folder_id`, and it is missing exactly when no folder has that `unique_id` |
| `App.FileManagerFile.Folder` | app/FileManagerFile.php:207-210 | the same join as the parent: folder `unique_id` = file `folder_id` |
| `App.FileManagerFile.Shared` | app/FileManagerFile.php:217-220 | the share is one whose `item_id` equals the file's `unique_id`, missing exactly when none does |
| `App.FalsyThumbnailHasNoUrl` | app/FileManagerFile.php:120-138 | a thumbnail of `null`, `""` or `"0"` has no URL under any driver and any token |
| `App.ObjectStoreUrlsIgnoreToken` | app/FileManagerFile.php:149-159 | on `s3`/`spaces`, two instances of one row give equal file and thumbnail URLs whatever their tokens |
| `App.LocalFileUrlCarriesToken` | app/FileManagerFile.php:163-171 | on `local`, the file route prefix is the same for every token, and the token after `/public/` is the instance's token exactly when it is truthy |
| `App.LocalThumbnailCarriesToken` | app/FileManagerFile.php:126-135 | the same for the thumbnail route of a row with a thumbnail |
| `App.SearchDocumentDependsOnIdAndName` | app/FileManagerFile.php:183-188 | the search document is fixed by the internal `id` and the name: `unique_id`, other columns and the token do not change it |
| `App.ParentIgnoresFolderId` | app/FileManagerFile.php:199-209 | in any list of folders, a folder whose internal `id` matches the file's `folder_id` but whose `unique_id` does not is neither `parent` nor `folder` |

## Left out

- `getCreatedAtAttribute` and the formatted branch of `getDeletedAtAttribute` (FileManagerFile.php:87, 99): `format_date` and the localised format string are outside this model. `DeletedAt` takes the formatter as an opaque parameter.
- `getFilesizeAttribute` (FileManagerFile.php:109): the byte-unit formatting library `ByteUnits\Metric` is not part of this model.
- `Str::slug`, `TNTIndexer::buildTrigrams` and `utf8_encode`: their sources are not part of this model, so they are opaque functions. The slug receives the raw, possibly `null`, name.
- `route()`, `Storage::temporaryUrl` and `now()`: the framework router, the credential signing call and the clock are uninterpreted. Signing failures, retries and backoff happen inside the signer and are not modelled.
- `AddDay`: `now()->addDay()` is modelled as now + 86400 seconds. This assumes a UTC clock; a calendar day across a daylight-saving change is not modelled.
- `is_storage_driver` is defined outside this file. It is modelled as membership of the configured driver in the given list; the string argument `'local'` is the list `["local"]`.
- The token is modelled as a nullable string. PHP values of other types passed to `setPublicUrl` are not modelled.
- `toSearchableArray` calls `$this->toArray()`, which also runs every accessor on the columns present: the appended `file_url` and `thumbnail`, which can call the signer; `created_at` and `deleted_at`, which call `format_date`; and `filesize`, which calls `Metric::bytes` and can throw on a malformed size. These calls, their side effects and their exceptions are not modelled; only `name` is read from the array.
- Relations are modelled as a lookup over a sequence of rows that returns the first match. The database's row order, lazy loading, and any soft-delete scope on folders are not modelled.
- Eloquent, Scout and SoftDeletes wiring (`$guarded`, `$appends`, query scopes, persistence) is not modelled.
- The migration adding `user_id` is schema plumbing with no logic. The column is the nullable `userId` field of `Attributes`.
- Concurrent requests sharing one instance, and the token leaking between them, are not modelled.
