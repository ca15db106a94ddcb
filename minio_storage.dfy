/** The parts of the MinIO avatar storage the use cases depend on: the
    public URL of an object, the content type chosen from its name, and the
    deletion of an object, recorded as a log of deleted names. */
module MinioStorage {
  import opened Common
  import opened Text

  const OctetStream := "application/octet-stream"

  /** The content-type table, with its default for any other extension. */
  function ContentTypeFor(extension: string): (r: string)
    ensures extension == "png" ==> r == "image/png"
    ensures extension == "jpg" || extension == "jpeg" ==> r == "image/jpeg"
    ensures extension == "gif" ==> r == "image/gif"
    ensures extension == "webp" ==> r == "image/webp"
    ensures r == OctetStream <==> extension !in {"png", "jpg", "jpeg", "gif", "webp"}
  {
    if extension == "png" then "image/png"
    else if extension == "jpg" || extension == "jpeg" then "image/jpeg"
    else if extension == "gif" then "image/gif"
    else if extension == "webp" then "image/webp"
    else OctetStream
  }

  /** `_get_content_type`: the lowered name's text after its last '.'
      (the whole name when there is none) looked up in the table. */
  function ContentType(objectName: string): string {
    ContentTypeFor(AfterLast(Lower(objectName), "."))
  }

  /** Lowering the name first makes the lookup case-insensitive. */
  lemma ContentTypeIgnoresCase(objectName: string)
    ensures ContentType(Lower(objectName)) == ContentType(objectName)
  {
    LowerIdempotent(objectName);
  }

  lemma LowerKeepsDotless(s: string)
    requires '.' !in s
    ensures '.' !in Lower(s)
  {
    forall i | 0 <= i < |s| ensures Lower(s)[i] != '.' {
      assert s[i] != '.';
    }
  }

  /** Only the text after the last '.' decides, whatever precedes it. */
  lemma {:induction false} ContentTypeOfExtension(stem: string, extension: string)
    requires '.' !in extension
    ensures ContentType(stem + "." + extension) == ContentTypeFor(Lower(extension))
  {
    LowerAppend(stem + ".", extension);
    LowerAppend(stem, ".");
    var prefix := Lower(stem);
    var tail := Lower(extension);
    assert Lower(".") == ".";
    assert Lower(stem + "." + extension) == prefix + "." + tail;
    LowerKeepsDotless(extension);
    var s := prefix + "." + tail;
    forall k | |prefix| < k ensures !OccursAt(s, ".", k) {
      if k + 1 <= |s| {
        assert s[k] == tail[k - |prefix| - 1];
        assert s[k..k + 1][0] == s[k];
      }
    }
    AfterLastOfSuffix(prefix, ".", tail);
  }

  /** A name without '.' is looked up whole. */
  lemma ContentTypeWithoutDot(objectName: string)
    requires '.' !in objectName
    ensures ContentType(objectName) == ContentTypeFor(Lower(objectName))
  {
    var l := Lower(objectName);
    LowerKeepsDotless(objectName);
    forall i | 0 <= i <= |l| ensures !OccursAt(l, ".", i) {
      if i + 1 <= |l| {
        assert l[i..i + 1][0] == l[i];
      }
    }
  }

  /** An upper-case extension after a stem. */
  lemma ContentTypeOfUpperCaseName()
    ensures ContentType("me.PNG") == "image/png"
  {
    ContentTypeOfExtension("me", "PNG");
    assert "me" + "." + "PNG" == "me.PNG";
    var l := Lower("PNG");
    assert l[0] == 'p' && l[1] == 'n' && l[2] == 'g';
    assert l == "png";
  }

  /** A name that is only the extension. */
  lemma ContentTypeOfBareExtension()
    ensures ContentType("png") == "image/png"
  {
    ContentTypeWithoutDot("png");
    assert Lower("png") == "png";
  }

  /** An earlier known extension does not count. */
  lemma ContentTypeOfDoubleExtension()
    ensures ContentType("a.png.txt") == OctetStream
  {
    ContentTypeOfExtension("a.png", "txt");
    assert "a.png" + "." + "txt" == "a.png.txt";
    assert Lower("txt") == "txt";
  }

  class MinioAvatarStorage {
    const endpoint: string
    const bucket: string
    /** The object names `delete_object` has been asked to remove, in order. */
    var deleted: seq<string>

    /** Both values come from the settings: the public endpoint and the
        avatar bucket. */
    constructor (settings: Settings)
      ensures endpoint == settings.minioPublicEndpoint && bucket == settings.minioAvatarBucket
      ensures deleted == []
    {
      endpoint := settings.minioPublicEndpoint;
      bucket := settings.minioAvatarBucket;
      deleted := [];
    }

    /** `get_public_url`: the endpoint, the bucket and the object name
        joined by '/'. */
    function GetPublicUrl(objectName: string): (r: string)
      ensures StartsWith(r, endpoint + "/" + bucket + "/")
      ensures r[|endpoint + "/" + bucket + "/"|..] == objectName
    {
      endpoint + "/" + bucket + "/" + objectName
    }

    /** `delete_object`; whether the store reports success is not modelled. */
    method DeleteObject(objectName: string)
      modifies this
      ensures deleted == old(deleted) + [objectName]
    {
      deleted := deleted + [objectName];
    }
  }
}
