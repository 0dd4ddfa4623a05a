/**
 * The deposit logic of ingestor.rb (a copy of `SwiftIngest::Ingestor`): the
 * lookup of a deposited file, the AIP metadata built for a deposit, and the
 * choice between updating an existing Swift object and creating a new one.
 * The Swift container is a map from object name to the stored object; the
 * MD5 digest of a file's content is an input function.
 */
module Ingestor {
  import opened Wrappers

  /** The prefix ruby-openstack expects on every metadata header. */
  const MetaPrefix := "X-Object-Meta-"

  /** A Swift object: its etag, content type, metadata headers and content. */
  datatype StoredObject = StoredObject(etag: string, contentType: string,
                                       metadata: map<string, string>, content: string)

  /** A Swift container: object name to object. */
  type Container = map<string, StoredObject>

  // ---------------------------------------------------------------------------
  // File.basename

  /** The path without its trailing slashes. */
  function StripTrailingSlashes(path: string): (r: string)
    ensures r <= path
    ensures |r| == 0 || r[|r| - 1] != '/'
    ensures forall i :: |r| <= i < |path| ==> path[i] == '/'
  {
    if |path| > 0 && path[|path| - 1] == '/' then StripTrailingSlashes(path[..|path| - 1]) else path
  }

  /** The part of the path after its last slash. */
  function AfterLastSlash(path: string): (r: string)
    ensures '/' !in r
    ensures |r| <= |path| && r == path[|path| - |r|..]
    ensures |r| < |path| ==> path[|path| - |r| - 1] == '/'
  {
    if |path| == 0 || path[|path| - 1] == '/' then ""
    else AfterLastSlash(path[..|path| - 1]) + [path[|path| - 1]]
  }

  /** `File.basename`: the last component of the path, ignoring trailing slashes. */
  function Basename(path: string): string
  {
    var trimmed := StripTrailingSlashes(path);
    if trimmed == "" then (if path == "" then "" else "/") else AfterLastSlash(trimmed)
  }

  /** A name without slashes is its own basename. */
  lemma {:induction false} PlainNameIsOwnBasename(name: string)
    requires '/' !in name
    ensures Basename(name) == name
  {
    if name != [] {
      assert name[|name| - 1] in name;
      assert StripTrailingSlashes(name) == name;
      PlainAfterLastSlash(name);
    }
  }

  lemma {:induction false} PlainAfterLastSlash(name: string)
    requires '/' !in name
    ensures AfterLastSlash(name) == name
  {
    if name != [] {
      assert name[|name| - 1] in name;
      var front := name[..|name| - 1];
      assert forall c :: c in front ==> c in name;
      PlainAfterLastSlash(front);
      assert front + [name[|name| - 1]] == name;
    }
  }

  /** `get_file_from_swit`: the object stored under the file's basename, if any. */
  function GetFile(container: Container, fileName: string): (r: Option<StoredObject>)
    ensures r.None? <==> Basename(fileName) !in container
    ensures r.Some? ==> r.value == container[Basename(fileName)]
  {
    var name := Basename(fileName);
    if name in container then Some(container[name]) else None
  }

  // ---------------------------------------------------------------------------
  // Metadata

  /** The AIP metadata every deposit carries before custom entries are merged in. */
  function AipMetadata(project: string, baseName: string): map<string, string>
  {
    map["project" := project, "project_id" := baseName, "promise" := "bronze", "aip_version" := "1.0"]
  }

  /** The deposit metadata: the AIP defaults, with custom entries winning on a clash. */
  function DepositMetadata(project: string, baseName: string, custom: map<string, string>)
    : (m: map<string, string>)
    ensures m.Keys == {"project", "project_id", "promise", "aip_version"} + custom.Keys
    ensures forall k :: k in custom ==> m[k] == custom[k]
    ensures "project" !in custom ==> m["project"] == project
    ensures "project_id" !in custom ==> m["project_id"] == baseName
    ensures "promise" !in custom ==> m["promise"] == "bronze"
    ensures "aip_version" !in custom ==> m["aip_version"] == "1.0"
  {
    AipMetadata(project, baseName) + custom
  }

  /** The key carries the metadata prefix. */
  predicate HasMetaPrefix(key: string)
  {
    |MetaPrefix| <= |key| && key[..|MetaPrefix|] == MetaPrefix
  }

  lemma PrefixInjective(a: string, b: string)
    requires MetaPrefix + a == MetaPrefix + b
    ensures a == b
  {
    assert a == (MetaPrefix + a)[|MetaPrefix|..];
    assert b == (MetaPrefix + b)[|MetaPrefix|..];
  }

  /** `transform_keys!`: every key gets the metadata prefix, values are kept. */
  function WithPrefix(m: map<string, string>): (p: map<string, string>)
    ensures forall k :: k in m ==> MetaPrefix + k in p && p[MetaPrefix + k] == m[k]
    ensures forall k :: k in p ==> HasMetaPrefix(k) && k[|MetaPrefix|..] in m
  {
    forall a, b | MetaPrefix + a == MetaPrefix + b ensures a == b {
      PrefixInjective(a, b);
    }
    var p := map k | k in m :: MetaPrefix + k := m[k];
    assert forall k :: k in p ==> HasMetaPrefix(k) && k[|MetaPrefix|..] in m by {
      forall k | k in p ensures HasMetaPrefix(k) && k[|MetaPrefix|..] in m {
        var j :| j in m && k == MetaPrefix + j;
        assert k[|MetaPrefix|..] == j;
      }
    }
    p
  }

  /**
   * The metadata value that `StorageObject#metadata[key]` gives for a stored
   * object, read through `to_s` (an absent key reads as the empty text).
   */
  function MetaValue(obj: StoredObject, key: string): string
  {
    if MetaPrefix + key in obj.metadata then obj.metadata[MetaPrefix + key] else ""
  }

  // ---------------------------------------------------------------------------
  // deposit_file

  /** The request sent: update of an existing object, or creation of a new one. */
  datatype Request =
    | Update(name: string, headers: map<string, string>)
    | Create(name: string, etag: string, contentType: string, metadata: map<string, string>)

  /** The headers of a request map that carry the metadata prefix. */
  function MetaHeaders(headers: map<string, string>): map<string, string>
  {
    map k | k in headers && HasMetaPrefix(k) :: headers[k]
  }

  /**
   * What Swift holds after the request: an update takes its etag and content
   * type from the plain headers and its metadata from the prefixed ones.
   */
  function Applied(request: Request, content: string): StoredObject
  {
    match request
    case Update(_, h) =>
      StoredObject(if "etag" in h then h["etag"] else "",
                   if "content-type" in h then h["content-type"] else "",
                   MetaHeaders(h), content)
    case Create(_, e, ct, md) => StoredObject(e, ct, md, content)
  }

  /** The update headers: etag and content type, with the prefixed metadata merged in. */
  function UpdateHeaders(checksum: string, contentType: string, metadata: map<string, string>)
    : map<string, string>
  {
    map["etag" := checksum, "content-type" := contentType] + metadata
  }

  /**
   * The update path and the create path store the same object: the same
   * etag, content type and metadata.
   */
  lemma UpdateAndCreateAgree(name: string, checksum: string, contentType: string,
                             metadata: map<string, string>, content: string)
    requires forall k :: k in metadata ==> HasMetaPrefix(k)
    ensures Applied(Update(name, UpdateHeaders(checksum, contentType, metadata)), content)
            == Applied(Create(name, checksum, contentType, metadata), content)
  {
    var h := UpdateHeaders(checksum, contentType, metadata);
    assert !HasMetaPrefix("etag") && !HasMetaPrefix("content-type");
    assert "etag" !in metadata && "content-type" !in metadata;
    assert MetaHeaders(h) == metadata;
  }

  /** The object a deposit of `content` under these arguments stores. */
  function DepositedObject(project: string, baseName: string, content: string, contentType: string,
                           custom: map<string, string>, md5: string -> string): StoredObject
  {
    StoredObject(md5(content), contentType, WithPrefix(DepositMetadata(project, baseName, custom)), content)
  }

  /**
   * `deposit_file`: the object is stored under the file's basename with etag
   * the file's MD5, the caller's content type and the prefixed deposit
   * metadata; the update path is taken exactly when that name already exists.
   * Both paths return the deposited object, with or without a database.
   */
  method DepositFile(project: string, container: Container, fileName: string, content: string,
                     contentType: string, custom: map<string, string>, md5: string -> string)
    returns (updated: Container, deposited: StoredObject, request: Request)
    ensures request.name == Basename(fileName)
    ensures request.Update? <==> Basename(fileName) in container
    ensures deposited == Applied(request, content)
    ensures deposited == DepositedObject(project, Basename(fileName), content, contentType, custom, md5)
    ensures updated == container[Basename(fileName) := deposited]
  {
    var baseName := Basename(fileName);
    var checksum := md5(content);
    var metadata := DepositMetadata(project, baseName, custom);
    metadata := WithPrefix(metadata);
    if baseName in container {
      request := Update(baseName, UpdateHeaders(checksum, contentType, metadata));
      UpdateAndCreateAgree(baseName, checksum, contentType, metadata, content);
    } else {
      request := Create(baseName, checksum, contentType, metadata);
    }
    deposited := Applied(request, content);
    updated := container[baseName := deposited];
  }

  /**
   * The `project_id` metadata a deposit carries is the basename, which is
   * also the object's name, unless custom metadata overrides it; and every
   * custom entry can be read back from the stored object.
   */
  lemma DepositReadBack(project: string, baseName: string, custom: map<string, string>,
                        obj: StoredObject, key: string)
    requires obj.metadata == WithPrefix(DepositMetadata(project, baseName, custom))
    ensures key in custom ==> MetaValue(obj, key) == custom[key]
    ensures "project_id" !in custom ==> MetaValue(obj, "project_id") == baseName
    ensures "promise" !in custom ==> MetaValue(obj, "promise") == "bronze"
  {
  }
}
