// Company logo storage (src/services/storageService.ts): the file check before
// upload, the object path, and which deletion errors are swallowed. The storage
// calls are parameters.
module StorageService {
  import opened Wrappers
  import opened Text

  const MaxLogoSize := 2 * 1024 * 1024

  const AllowedLogoTypes: seq<string> :=
    ["image/png", "image/jpeg", "image/jpg", "image/svg+xml", "image/webp"]

  const LogoTooLarge := "Arquivo muito grande. Tamanho máximo: 2MB"
  const LogoUnsupported := "Formato não suportado. Use PNG, JPG, SVG ou WEBP"

  /** validateFile: throws on a file over 2 MiB, then on a type outside the list. */
  function ValidateFile(mimeType: string, size: int): (r: Outcome)
    ensures r == Done <==> size <= MaxLogoSize && mimeType in AllowedLogoTypes
    ensures size > MaxLogoSize ==> r == Failed(LogoTooLarge)
    ensures size <= MaxLogoSize && mimeType !in AllowedLogoTypes ==> r == Failed(LogoUnsupported)
  {
    if size > MaxLogoSize then Failed(LogoTooLarge)
    else if mimeType !in AllowedLogoTypes then Failed(LogoUnsupported)
    else Done
  }

  /** `name.split('.').pop()`: the text after the last '.', or the whole name. */
  function LastSegment(name: string): (r: string)
    ensures '.' !in r
    ensures |r| <= |name| && r == name[|name| - |r|..]
    ensures |r| < |name| ==> name[|name| - |r| - 1] == '.'
    ensures '.' !in name ==> r == name
  {
    if name == [] then []
    else if name[|name| - 1] == '.' then []
    else LastSegment(name[..|name| - 1]) + [name[|name| - 1]]
  }

  /** The segment is the file's extension: the name is a prefix, a dot and the segment. */
  lemma LastSegmentSplit(name: string)
    requires '.' in name
    ensures var ext := LastSegment(name);
      name == name[..|name| - |ext| - 1] + "." + ext
  {
    var ext := LastSegment(name);
    assert |ext| < |name|;
    var k := |name| - |ext| - 1;
    SplitAt(name, k, ext);
  }

  /** A text whose character `k` is a '.' followed by `ext` is its prefix, a dot and `ext`. */
  lemma SplitAt(name: string, k: nat, ext: string)
    requires k < |name| && name[k] == '.' && ext == name[k + 1..]
    ensures name == name[..k] + "." + ext
  {
    assert name[..k] + "." + ext == name[..k] + [name[k]] + name[k + 1..];
    assert name == name[..k] + name[k..];
  }

  /** The path handed to upload: `${companyId}/logo-${timestamp}.${ext}`. */
  function LogoPath(companyId: string, fileName: string, timestamp: nat): (p: string)
    ensures IsPrefix(companyId + "/logo-", p)
  {
    var prefix := companyId + "/logo-";
    var p := prefix + NatToString(timestamp) + "." + LastSegment(fileName);
    PrefixOfAppend(prefix, NatToString(timestamp) + "." + LastSegment(fileName));
    assert p == prefix + (NatToString(timestamp) + "." + LastSegment(fileName));
    p
  }

  lemma PrefixOfAppend(x: string, y: string)
    ensures IsPrefix(x, x + y)
  {
    assert (x + y)[..|x|] == x;
  }

  /** The path ends with the file's extension after a dot. */
  lemma LogoPathExtension(companyId: string, fileName: string, timestamp: nat)
    ensures var p := LogoPath(companyId, fileName, timestamp); var ext := LastSegment(fileName);
      p[|p| - |ext|..] == ext && p[|p| - |ext| - 1] == '.'
  {
  }

  /** An error thrown by the storage API; its message may be missing. */
  datatype StorageError = StorageError(message: Option<string>)

  /** The catch clause of deleteCompanyLogo: a "not found" error is swallowed. */
  predicate Swallowed(e: StorageError)
  {
    e.message.Some? && Contains(e.message.value, "not found")
  }

  datatype DeleteResult = DeleteResult(removeRequested: seq<string>, thrown: Option<StorageError>)

  /** deleteCompanyLogo, with the listing result and the removal result passed in. */
  function DeleteCompanyLogo(companyId: string, listing: Result<seq<string>>, removeError: Option<StorageError>)
    : (r: DeleteResult)
    ensures listing.Err? ==> r.removeRequested == []
    ensures listing.Err? ==> var e := StorageError(Some(listing.error));
      r.thrown == if Swallowed(e) then None else Some(e)
    ensures listing.Ok? ==> |r.removeRequested| == |listing.value|
    ensures listing.Ok? ==>
      forall i :: 0 <= i < |listing.value| ==> r.removeRequested[i] == companyId + "/" + listing.value[i]
    ensures r.thrown.Some? ==> !Swallowed(r.thrown.value)
    ensures listing.Ok? && (listing.value == [] || removeError.None?) ==> r.thrown.None?
  {
    match listing
    case Err(msg) =>
      var e := StorageError(Some(msg));
      DeleteResult([], if Swallowed(e) then None else Some(e))
    case Ok(files) =>
      if |files| == 0 then DeleteResult([], None)
      else
        var paths := seq(|files|, i requires 0 <= i < |files| => companyId + "/" + files[i]);
        match removeError
        case None => DeleteResult(paths, None)
        case Some(e) => DeleteResult(paths, if Swallowed(e) then None else Some(e))
  }

  /** A failed removal is rethrown exactly when its message does not mention "not found". */
  lemma DeleteErrorFilter(companyId: string, files: seq<string>, e: StorageError)
    requires files != []
    ensures DeleteCompanyLogo(companyId, Ok(files), Some(e)).thrown == (if Swallowed(e) then None else Some(e))
  {
  }
}
