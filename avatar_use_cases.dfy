/** Avatar upload and removal: a new object name per upload, the public
    URL stored on the user, and the object name recovered from that URL
    when the avatar is removed. */
module AvatarUseCasesModule {
  import opened Common
  import opened Text
  import opened Entities
  import opened UserRepo
  import opened DummyUow
  import opened Cache
  import opened MinioStorage

  /** `_object_name`: the user's id, '/', a new id and ".png". `fileId`
      stands for `uuid4()`. */
  function ObjectName(userId: Uuid, fileId: Uuid): (r: string)
    ensures |r| == 77 && r[..36] == userId && r[36] == '/' && r[37..73] == fileId && r[73..] == ".png"
    ensures forall i :: 0 <= i < |r| && i != 36 ==> r[i] != '/'
  {
    var r := userId + "/" + fileId + ".png";
    forall i | 0 <= i < |r| && i != 36 ensures r[i] != '/' {
      if i < 36 {
        UuidHasNoColonOrSlash(userId, i);
      } else if i < 73 {
        UuidHasNoColonOrSlash(fileId, i - 37);
      }
    }
    r
  }

  /** Every object name is uploaded as a PNG image. */
  lemma ObjectNameIsPng(userId: Uuid, fileId: Uuid)
    ensures ContentType(ObjectName(userId, fileId)) == "image/png"
  {
    var stem := userId + "/" + fileId;
    assert ObjectName(userId, fileId) == stem + ".png";
    PngNameIsPng(stem);
  }

  lemma PngNameIsPng(stem: string)
    ensures ContentType(stem + ".png") == "image/png"
  {
    assert '.' !in "png";
    ContentTypeOfExtension(stem, "png");
    PngExtensionIsPng();
    PngSuffix(stem);
  }

  lemma PngSuffix(stem: string)
    ensures stem + "." + "png" == stem + ".png"
  {
    assert "." + "png" == ".png";
  }

  lemma PngExtensionIsPng()
    ensures ContentTypeFor(Lower("png")) == "image/png"
  {
    var l := Lower("png");
    assert l[0] == 'p' && l[1] == 'n' && l[2] == 'g';
    assert l == "png";
  }

  /** `_extract_object_name`: the text after the last "bucket/" of the URL,
      or the whole URL when it does not occur. */
  function ExtractObjectName(bucket: string, url: string): (r: string)
    ensures !Contains(url, bucket + "/") ==> r == url
    ensures Contains(url, bucket + "/") ==>
              exists i :: 0 <= i <= |url| && OccursAt(url, bucket + "/", i) &&
                r == url[i + |bucket| + 1..] && forall k :: i < k ==> !OccursAt(url, bucket + "/", k)
  {
    AfterLast(url, bucket + "/")
  }

  /** `_user_cache_key`. */
  function UserCacheKey(userId: Uuid): string {
    "user:" + userId
  }

  lemma UserCacheKeyInjective(a: Uuid, b: Uuid)
    requires UserCacheKey(a) == UserCacheKey(b)
    ensures a == b
  {
    assert a == UserCacheKey(a)[5..];
  }

  /** Extraction inverts `get_public_url` for every object name that does
      not itself contain "bucket/", given a bucket name without '/'. */
  lemma {:induction false} ExtractAfterPublicUrl(endpoint: string, bucket: string, objectName: string)
    requires '/' !in bucket
    requires !Contains(objectName, bucket + "/")
    ensures ExtractObjectName(bucket, endpoint + "/" + bucket + "/" + objectName) == objectName
  {
    var prefix := endpoint + "/";
    var sep := bucket + "/";
    var s := prefix + sep + objectName;
    assert s == endpoint + "/" + bucket + "/" + objectName;
    forall k | |prefix| < k ensures !OccursAt(s, sep, k) {
      if k < |prefix| + |sep| {
        NoOverlapAfter(prefix, bucket, objectName, k);
      } else if OccursAt(s, sep, k) {
        var j := k - |prefix| - |sep|;
        assert s[k..k + |sep|] == objectName[j..j + |sep|];
        assert OccursAt(objectName, sep, j);
        assert false;
      }
    }
    AfterLastOfSuffix(prefix, sep, objectName);
  }

  /** A bucket name with a character that no UUID text has (a letter past
      'f', an upper-case letter, '.', ...) never occurs in an object name
      followed by '/'. */
  lemma ObjectNameAvoidsBucket(bucket: string, userId: Uuid, fileId: Uuid)
    requires exists j :: 0 <= j < |bucket| && !IsHexDigit(bucket[j]) && bucket[j] != '-'
    ensures !Contains(ObjectName(userId, fileId), bucket + "/")
  {
    var name := ObjectName(userId, fileId);
    var sep := bucket + "/";
    forall i | 0 <= i <= |name| ensures !OccursAt(name, sep, i) {
      if i + |sep| <= |name| {
        var w := name[i..i + |sep|];
        assert sep[|bucket|] == '/';
        if i + |bucket| != 36 {
          assert w[|bucket|] == name[i + |bucket|] != '/';
        } else {
          var j :| 0 <= j < |bucket| && !IsHexDigit(bucket[j]) && bucket[j] != '-';
          assert w[j] == userId[i + j];
          assert IsHexDigit(userId[i + j]) || userId[i + j] == '-';
          assert w[j] != sep[j];
        }
      }
    }
  }

  /** The removal path recovers exactly the object uploaded for the user. */
  lemma ObjectNameRoundTrip(endpoint: string, bucket: string, userId: Uuid, fileId: Uuid)
    requires '/' !in bucket
    requires exists j :: 0 <= j < |bucket| && !IsHexDigit(bucket[j]) && bucket[j] != '-'
    ensures ExtractObjectName(bucket, endpoint + "/" + bucket + "/" + ObjectName(userId, fileId)) == ObjectName(userId, fileId)
  {
    ObjectNameAvoidsBucket(bucket, userId, fileId);
    ExtractAfterPublicUrl(endpoint, bucket, ObjectName(userId, fileId));
  }

  /** The round trip for an example bucket named "avatars"; the bucket name
      comes from the settings, and this one is only an illustration. */
  lemma AvatarsBucketRoundTrip(endpoint: string, userId: Uuid, fileId: Uuid)
    ensures ExtractObjectName("avatars", endpoint + "/avatars/" + ObjectName(userId, fileId)) == ObjectName(userId, fileId)
  {
    AvatarsBucketName();
    ObjectNameRoundTrip(endpoint, "avatars", userId, fileId);
    AvatarsPublicUrl(endpoint, ObjectName(userId, fileId));
  }

  /** The example bucket name "avatars" has no '/' and holds 'v', which no
      UUID text has. */
  lemma AvatarsBucketName()
    ensures '/' !in "avatars"
    ensures exists j :: 0 <= j < |"avatars"| && !IsHexDigit("avatars"[j]) && "avatars"[j] != '-'
  {
    var bucket := "avatars";
    assert !IsHexDigit(bucket[1]) && bucket[1] != '-';
  }

  /** The public URL in the example bucket, with its separators joined. */
  lemma AvatarsPublicUrl(endpoint: string, name: string)
    ensures endpoint + "/" + "avatars" + "/" + name == endpoint + "/avatars/" + name
  {
    assert "/" + "avatars" + "/" == "/avatars/";
    assert endpoint + "/" + "avatars" + "/" + name == endpoint + ("/" + "avatars" + "/") + name;
  }

  class UserAvatarUseCase {
    const storage: MinioAvatarStorage
    const uow: DummyUnitOfWork
    const cache: CacheService<UserDto>
    const settings: Settings

    constructor (storage: MinioAvatarStorage, uow: DummyUnitOfWork, cache: CacheService<UserDto>, settings: Settings)
      ensures this.storage == storage && this.uow == uow && this.cache == cache && this.settings == settings
    {
      this.storage := storage;
      this.uow := uow;
      this.cache := cache;
      this.settings := settings;
    }

    /** The store and `_extract_object_name` read the same bucket setting. */
    ghost predicate Valid()
      reads this, storage, uow, uow.userRepository
    {
      uow.userRepository.Valid() && storage.bucket == settings.minioAvatarBucket
    }

    /** An unknown user raises and nothing changes. Otherwise the user's
        `avatarUrl` becomes the public URL of the fileId object name (no other
        field or user changes), the user's cache entry is dropped, and the
        upload and public URLs are returned. The upload URL is signed by the
        store and comes in as `uploadUrl`. */
    method GeneratePresignedUrls(userId: Uuid, fileId: Uuid, uploadUrl: string) returns (r: Result<(string, string)>)
      requires Valid()
      modifies uow.userRepository, cache
      ensures Valid()
      ensures userId !in old(uow.userRepository.users.entries) ==>
                r == Err(UserNotFound("User with id " + userId + " not found")) &&
                uow.userRepository.users == old(uow.userRepository.users) && cache.entries == old(cache.entries)
      ensures userId in old(uow.userRepository.users.entries) ==>
                var publicUrl := storage.GetPublicUrl(ObjectName(userId, fileId));
                uow.userRepository.users ==
                  old(uow.userRepository.users).Put(userId, old(uow.userRepository.users.entries)[userId].(avatarUrl := Some(publicUrl))) &&
                cache.entries == old(cache.entries) - {UserCacheKey(userId)} &&
                r == Ok((uploadUrl, publicUrl))
    {
      var objectName := ObjectName(userId, fileId);
      var publicUrl := storage.GetPublicUrl(objectName);
      var user := uow.userRepository.GetById(userId);
      if user.None? {
        return Err(UserNotFound("User with id " + userId + " not found"));
      }
      uow.userRepository.UpdateAvatarUrl(userId, Some(publicUrl));
      cache.Delete(UserCacheKey(userId));
      r := Ok((uploadUrl, publicUrl));
    }

    /** An unknown user raises, and a user without an avatar is left alone;
        otherwise the object named in the stored URL is deleted, the URL is
        cleared and the user's cache entry is dropped. */
    method DeleteAvatar(userId: Uuid) returns (r: Result<()>)
      requires Valid()
      modifies uow.userRepository, cache, storage
      ensures Valid()
      ensures userId !in old(uow.userRepository.users.entries) ==>
                r == Err(UserNotFound("User with id " + userId + " not found"))
      ensures userId !in old(uow.userRepository.users.entries) ||
              old(uow.userRepository.users.entries)[userId].avatarUrl.None? ==>
                uow.userRepository.users == old(uow.userRepository.users) &&
                cache.entries == old(cache.entries) && storage.deleted == old(storage.deleted)
      ensures userId in old(uow.userRepository.users.entries) ==> r == Ok(())
      ensures userId in old(uow.userRepository.users.entries) &&
              old(uow.userRepository.users.entries)[userId].avatarUrl.Some? ==>
                var u := old(uow.userRepository.users.entries)[userId];
                storage.deleted == old(storage.deleted) + [ExtractObjectName(settings.minioAvatarBucket, u.avatarUrl.value)] &&
                uow.userRepository.users == old(uow.userRepository.users).Put(userId, u.(avatarUrl := None)) &&
                cache.entries == old(cache.entries) - {UserCacheKey(userId)}
    {
      var user := uow.userRepository.GetById(userId);
      if user.None? {
        return Err(UserNotFound("User with id " + userId + " not found"));
      }
      if user.value.avatarUrl.Some? {
        storage.DeleteObject(ExtractObjectName(settings.minioAvatarBucket, user.value.avatarUrl.value));
        uow.userRepository.UpdateAvatarUrl(userId, None);
        cache.Delete(UserCacheKey(userId));
      }
      r := Ok(());
    }

    /** An avatar URL set by `GeneratePresignedUrls` names, for removal, the
        very object it was generated for. */
    lemma RemovalFindsUploadedObject(userId: Uuid, fileId: Uuid)
      requires Valid()
      requires '/' !in settings.minioAvatarBucket
      requires exists j :: 0 <= j < |settings.minioAvatarBucket| &&
                 !IsHexDigit(settings.minioAvatarBucket[j]) && settings.minioAvatarBucket[j] != '-'
      ensures ExtractObjectName(settings.minioAvatarBucket, storage.GetPublicUrl(ObjectName(userId, fileId))) ==
              ObjectName(userId, fileId)
    {
      ObjectNameRoundTrip(storage.endpoint, storage.bucket, userId, fileId);
    }
  }
}
