// The customer portal's dashboard (src/pages/portal/PortalDashboard.tsx): the
// load decision, the photo gallery's three state fields and their navigation,
// the loyalty badges and the status labels. The portal data query is a
// parameter.
module PortalDashboard {
  import opened Wrappers
  import PortalService

  /** What loadData ends in. */
  datatype LoadOutcome = RedirectToLogin | Loaded | LoadFailed(message: string)

  /** loadData: no session sends the customer to the login page; a failed query shows its
    * message, or a default one when the message is empty. */
  function LoadData(session: Option<PortalService.Session>, query: Result<()>): (r: LoadOutcome)
    ensures session.None? <==> r == RedirectToLogin
    ensures session.Some? && query.Ok? <==> r == Loaded
    ensures r.LoadFailed? ==> r.message != ""
    ensures r.LoadFailed? && query.error != "" ==> r.message == query.error
  {
    if session.None? then RedirectToLogin
    else match query
      case Ok(_) => Loaded
      case Err(e) => LoadFailed(if e != "" then e else "Erro ao carregar dados")
  }

  /** `photos.indexOf(url)` */
  function IndexOf(photos: seq<string>, url: string): (i: int)
    ensures -1 <= i < |photos|
    ensures i == -1 <==> url !in photos
    ensures i >= 0 ==> photos[i] == url && url !in photos[..i]
  {
    if photos == [] then -1
    else if photos[0] == url then 0
    else
      var j := IndexOf(photos[1..], url);
      if j == -1 then -1
      else
        assert photos[..j + 1] == [photos[0]] + photos[1..][..j];
        j + 1
  }

  /** goToNextPhoto's index: `(i + 1) % n`. */
  function NextIndex(i: nat, n: nat): (r: nat)
    requires i < n
    ensures r < n
    ensures i + 1 < n ==> r == i + 1
    ensures i + 1 == n ==> r == 0
  {
    (i + 1) % n
  }

  /** goToPreviousPhoto's index. */
  function PrevIndex(i: nat, n: nat): (r: nat)
    requires i < n
    ensures r < n
  {
    if i == 0 then n - 1 else i - 1
  }

  /** Next and previous undo each other. */
  lemma NextPrevInverse(i: nat, n: nat)
    requires i < n
    ensures PrevIndex(NextIndex(i, n), n) == i
    ensures NextIndex(PrevIndex(i, n), n) == i
  {
  }

  /** k steps forward from i. */
  function StepsForward(i: nat, k: nat, n: nat): (r: nat)
    requires i < n
    ensures r < n
  {
    if k == 0 then i else NextIndex(StepsForward(i, k - 1, n), n)
  }

  /** Up to one full round, k steps forward land k places on, wrapping past the end once. */
  lemma {:induction false} StepsForwardWraps(i: nat, k: nat, n: nat)
    requires i < n && k <= n
    ensures StepsForward(i, k, n) == if i + k < n then i + k else i + k - n
  {
    if k > 0 {
      StepsForwardWraps(i, k - 1, n);
    }
  }

  /** n steps forward go all the way round the gallery. */
  lemma FullCircle(i: nat, n: nat)
    requires i < n
    ensures StepsForward(i, n, n) == i
  {
    StepsForwardWraps(i, n, n);
  }

  /** The gallery's three state fields. */
  class Gallery {
    var allPhotos: seq<string>
    var selectedPhotoIndex: nat
    var selectedPhoto: Option<string>

    /** The index is in range whenever there are photos. */
    predicate Valid()
      reads this
    {
      allPhotos != [] ==> selectedPhotoIndex < |allPhotos|
    }

    /** The selection agrees with the index (after any navigation step). */
    predicate Consistent()
      reads this
    {
      Valid() && allPhotos != [] && selectedPhoto == Some(allPhotos[selectedPhotoIndex])
    }

    constructor ()
      ensures allPhotos == [] && selectedPhotoIndex == 0 && selectedPhoto.None? && Valid()
    {
      allPhotos := [];
      selectedPhotoIndex := 0;
      selectedPhoto := None;
    }

    /** openPhotoGallery: a url missing from the list selects index 0 but still shows the url. */
    method OpenPhotoGallery(photoUrl: string, photos: seq<string>)
      modifies this
      ensures allPhotos == photos && selectedPhoto == Some(photoUrl) && Valid()
      ensures photoUrl in photos ==> selectedPhotoIndex == IndexOf(photos, photoUrl) && Consistent()
      ensures photoUrl !in photos ==> selectedPhotoIndex == 0
    {
      allPhotos := photos;
      var index := IndexOf(photos, photoUrl);
      selectedPhotoIndex := if index >= 0 then index else 0;
      selectedPhoto := Some(photoUrl);
    }

    method ClosePhotoGallery()
      modifies this
      ensures selectedPhoto.None? && allPhotos == [] && selectedPhotoIndex == 0 && Valid()
    {
      selectedPhoto := None;
      allPhotos := [];
      selectedPhotoIndex := 0;
    }

    method GoToNextPhoto()
      requires Valid()
      modifies this
      ensures allPhotos == old(allPhotos) && Valid()
      ensures old(allPhotos) == [] ==> selectedPhotoIndex == old(selectedPhotoIndex) && selectedPhoto == old(selectedPhoto)
      ensures old(allPhotos) != [] ==>
        selectedPhotoIndex == NextIndex(old(selectedPhotoIndex), |allPhotos|) && Consistent()
    {
      if |allPhotos| == 0 {
        return;
      }
      var nextIndex := (selectedPhotoIndex + 1) % |allPhotos|;
      selectedPhotoIndex := nextIndex;
      selectedPhoto := Some(allPhotos[nextIndex]);
    }

    method GoToPreviousPhoto()
      requires Valid()
      modifies this
      ensures allPhotos == old(allPhotos) && Valid()
      ensures old(allPhotos) == [] ==> selectedPhotoIndex == old(selectedPhotoIndex) && selectedPhoto == old(selectedPhoto)
      ensures old(allPhotos) != [] ==>
        selectedPhotoIndex == PrevIndex(old(selectedPhotoIndex), |allPhotos|) && Consistent()
    {
      if |allPhotos| == 0 {
        return;
      }
      var prevIndex := if selectedPhotoIndex == 0 then |allPhotos| - 1 else selectedPhotoIndex - 1;
      selectedPhotoIndex := prevIndex;
      selectedPhoto := Some(allPhotos[prevIndex]);
    }

    /** The keyboard handler: nothing while no photo (or an empty url) is shown. */
    method HandleKeyDown(key: string)
      requires Valid()
      modifies this
      ensures Valid()
      ensures (old(selectedPhoto).None? || old(selectedPhoto) == Some("")) ==>
        allPhotos == old(allPhotos) && selectedPhotoIndex == old(selectedPhotoIndex) && selectedPhoto == old(selectedPhoto)
      ensures old(selectedPhoto).Some? && old(selectedPhoto) != Some("") && key == "Escape" ==>
        selectedPhoto.None? && allPhotos == []
      ensures old(selectedPhoto).Some? && old(selectedPhoto) != Some("") && key == "ArrowRight" && old(allPhotos) != [] ==>
        selectedPhotoIndex == NextIndex(old(selectedPhotoIndex), |old(allPhotos)|)
      ensures old(selectedPhoto).Some? && old(selectedPhoto) != Some("") && key == "ArrowLeft" && old(allPhotos) != [] ==>
        selectedPhotoIndex == PrevIndex(old(selectedPhotoIndex), |old(allPhotos)|)
    {
      if selectedPhoto.None? || selectedPhoto == Some("") {
        return;
      }
      if key == "ArrowRight" {
        GoToNextPhoto();
      } else if key == "ArrowLeft" {
        GoToPreviousPhoto();
      } else if key == "Escape" {
        ClosePhotoGallery();
      }
    }
  }

  /** The "Cliente VIP" badge. */
  predicate VipBadge(totalServices: int) { totalServices >= 10 }

  /** The loyal-customer badge. */
  predicate LoyalBadge(totalServices: int) { totalServices >= 5 && totalServices < 10 }

  /** The two badges never show together, and every count from 5 up shows exactly one. */
  lemma BadgesExclusive(totalServices: int)
    ensures !(VipBadge(totalServices) && LoyalBadge(totalServices))
    ensures totalServices >= 5 <==> VipBadge(totalServices) || LoyalBadge(totalServices)
  {
  }

  /** getStatusBadge's label: three known statuses, the status itself otherwise. */
  function StatusLabel(status: string): (r: string)
    ensures status !in {"completed", "in_progress", "pending"} ==> r == status
    ensures status in {"completed", "in_progress", "pending"} ==> r != status && r != ""
  {
    if status == "completed" then "Concluído"
    else if status == "in_progress" then "Em Andamento"
    else if status == "pending" then "Pendente"
    else status
  }
}
