/** The banner views that touch the BannerInstance table: `customize` creates
    a user's (banner, image) pairing, `link` and `old_link` count a click on a
    pairing and send the visitor on to the banner's destination.

    The table is keyed by its primary key and, as a second key, by the triple
    (user, badge, image). Each row carries its click counter and the
    destination its banner links to. */
module BannerViews {
  import opened Wrappers
  import opened Http

  type UserId = int
  type BadgeId = int
  type ImageId = int
  type InstanceId = int

  datatype BannerInstance = BannerInstance(user: UserId, badge: BadgeId, image: ImageId, clicks: nat, destination: string)
  {
    /** This row is the pairing of `u`, `b` and `i`: its (user, badge, image)
        triple, which identifies a pairing, is (u, b, i). */
    predicate Pairs(u: UserId, b: BadgeId, i: ImageId) {
      user == u && badge == b && image == i
    }
  }

  /** No two rows share a (user, badge, image) triple. */
  ghost predicate TriplesUnique(rows: map<InstanceId, BannerInstance>) {
    forall a, b :: a in rows && b in rows && rows[a].Pairs(rows[b].user, rows[b].badge, rows[b].image) ==> a == b
  }

  /** The table after one click on row `id`: that row's counter goes up by
      exactly one, and no other row and no other field changes. */
  function Clicked(rows: map<InstanceId, BannerInstance>, id: InstanceId): (r: map<InstanceId, BannerInstance>)
    requires id in rows
    ensures r.Keys == rows.Keys
    ensures r[id].clicks == rows[id].clicks + 1
    ensures r[id].Pairs(rows[id].user, rows[id].badge, rows[id].image) && r[id].destination == rows[id].destination
    ensures forall k :: k in rows && k != id ==> r[k] == rows[k]
  {
    rows[id := rows[id].(clicks := rows[id].clicks + 1)]
  }

  /** A click never creates, removes or re-keys a row, so the triples stay
      unique. */
  lemma ClickedKeepsTriplesUnique(rows: map<InstanceId, BannerInstance>, id: InstanceId)
    requires id in rows && TriplesUnique(rows)
    ensures TriplesUnique(Clicked(rows, id))
  {
  }

  /** The BannerInstance table; `nextId` is the next primary key the database
      hands out. */
  class InstanceTable {
    var rows: map<InstanceId, BannerInstance>
    var nextId: InstanceId

    ghost predicate Valid()
      reads this
    {
      0 < nextId &&
      (forall id :: id in rows ==> 0 < id < nextId) &&
      TriplesUnique(rows)
    }

    constructor ()
      ensures Valid() && rows == map[]
    {
      rows := map[];
      nextId := 1;
    }

    /** `BannerInstance.objects.get(user=..., badge=..., image=...)`, with
        DoesNotExist as None. */
    method Find(user: UserId, badge: BadgeId, image: ImageId) returns (found: Option<InstanceId>)
      requires Valid()
      ensures found.Some? ==> found.value in rows && rows[found.value].Pairs(user, badge, image)
      ensures found.None? ==> forall id :: id in rows ==> !rows[id].Pairs(user, badge, image)
    {
      if id :| id in rows && rows[id].Pairs(user, badge, image) {
        found := Some(id);
      } else {
        found := None;
      }
    }

    /** The `customize` view on a POST of `image` for banner `badge`. An image
        outside the banner's `choices` fails form validation: the form page is
        rendered again (200) and nothing is stored. A valid image gets or
        creates the user's (badge, image) pairing and redirects. */
    method Customize(user: UserId, badge: BadgeId, image: ImageId, choices: set<ImageId>,
                     destination: string, successUrl: string) returns (response: Response)
      requires Valid()
      modifies this
      ensures Valid()
      ensures image !in choices ==> response == Page(200) && rows == old(rows) && nextId == old(nextId)
      ensures image in choices ==> response == Redirect(successUrl) && response.StatusCode() == 302
      // get-or-create: an existing pairing is reused ...
      ensures image in choices && (exists id :: id in old(rows) && old(rows)[id].Pairs(user, badge, image)) ==>
        rows == old(rows) && nextId == old(nextId)
      // ... otherwise one row with no clicks is added under a fresh key.
      ensures image in choices && (forall id :: id in old(rows) ==> !old(rows)[id].Pairs(user, badge, image)) ==>
        old(nextId) !in old(rows) && nextId == old(nextId) + 1 &&
        rows == old(rows)[old(nextId) := BannerInstance(user, badge, image, 0, destination)]
      ensures image in choices ==> exists id :: id in rows && rows[id].Pairs(user, badge, image)
    {
      if image !in choices {
        return Page(200);
      }
      var existing := Find(user, badge, image);
      match existing {
        case None =>
          var id := nextId;
          rows := rows[id := BannerInstance(user, badge, image, 0, destination)];
          nextId := nextId + 1;
          assert rows[id].Pairs(user, badge, image);
        case Some(id) =>
          assert old(rows)[id].Pairs(user, badge, image);
      }
      response := Redirect(successUrl);
    }

    /** The `link` view for instance `id`: count the click and go to the
        banner's destination; an unknown id goes to `defaultLink` and changes
        nothing. */
    method Link(id: InstanceId, defaultLink: string) returns (response: Response)
      requires Valid()
      modifies this
      ensures Valid() && nextId == old(nextId)
      ensures id in old(rows) ==>
        rows == Clicked(old(rows), id) && response == Redirect(old(rows)[id].destination)
      ensures id !in old(rows) ==> rows == old(rows) && response == Redirect(defaultLink)
    {
      if id in rows {
        response := Redirect(rows[id].destination);
        ClickedKeepsTriplesUnique(rows, id);
        rows := Clicked(rows, id);
      } else {
        response := Redirect(defaultLink);
      }
    }

    /** The `old_link` view for the legacy (user, banner, image) URLs: count the
        click on the matching pairing and go to its destination; with no
        matching pairing go to `defaultLink`. It never creates a pairing. */
    method OldLink(user: UserId, badge: BadgeId, image: ImageId, defaultLink: string) returns (response: Response)
      requires Valid()
      modifies this
      ensures Valid() && nextId == old(nextId) && rows.Keys == old(rows).Keys
      ensures (exists id :: id in rows && rows[id].Pairs(user, badge, image)) <==>
              (exists id :: id in old(rows) && old(rows)[id].Pairs(user, badge, image))
      ensures forall id :: id in old(rows) && old(rows)[id].Pairs(user, badge, image) ==>
        rows == Clicked(old(rows), id) && response == Redirect(old(rows)[id].destination)
      ensures (forall id :: id in old(rows) ==> !old(rows)[id].Pairs(user, badge, image)) ==>
        rows == old(rows) && response == Redirect(defaultLink)
    {
      var found := Find(user, badge, image);
      match found
      case Some(id) =>
        response := Redirect(rows[id].destination);
        ClickedKeepsTriplesUnique(rows, id);
        rows := Clicked(rows, id);
      case None =>
        response := Redirect(defaultLink);
    }
  }
}
