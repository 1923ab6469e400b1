/**
 * Which image the guest's `frridge-frr:latest` names (internal/multipass/multipass.go).
 *
 * The guest's Docker is a store of images and tags.  Every command on it may fail, a
 * failing command may have done part of its work, and between commands anyone else may
 * use the store for anything but the latest tag.
 */
module GuestImage {
  import opened Options
  import ImageCache

  const LATEST := "frridge-frr:latest"

  /** The two labels an image carries; an absent label reads as the empty string. */
  datatype Labels = Labels(inputs: string, legacyID: string)

  /** What inspection prints; all three are empty when nothing has the name asked for. */
  datatype Identity = Identity(id: string, inputs: string, legacyID: string)

  const NOBODY := Identity("", "", "")

  datatype Archive = Archive(id: string, legacy: bool)

  datatype HostBuild = Fresh(id: string) | Unavailable | Broken

  /** The host's side: its cache directory now, and how a build there would end. */
  datatype Host = Host(cache: ImageCache.World, build: HostBuild)

  datatype Request = Request(dockerfile: bool, refresh: bool, inputs: string, legacyID: string, noOverrides: bool)

  datatype Route = NoDockerfile | Kept | FromCache(archive: Archive) | FromHost(id: string) | FromGuest

  class Guest {
    /** An image's ID is a digest of it, so the ID alone decides its labels. */
    const content: string -> Labels
    /** The image an archive holds, right or wrong, and the one a build in the guest makes. */
    const held: Archive -> string
    const built: string
    var images: set<string>
    var tags: map<string, string>
    /** How often a command has failed, or someone else has changed the store. */
    ghost var mishaps: nat

    ghost predicate Valid()
      reads this
    {
      (forall id :: id in images ==> IsID(id)) && forall t :: t in tags ==> tags[t] in images
    }

    function Describe(id: string): Identity {
      Identity(id, content(id).inputs, content(id).legacyID)
    }

    /** What a name refers to: a tag, an image ID or nothing. */
    function Resolve(name: string): Identity
      reads this
    {
      if name in tags then Describe(tags[name]) else if name in images then Describe(name) else NOBODY
    }

    function Latest(): Option<Identity>
      reads this
    {
      if LATEST in tags then Some(Resolve(LATEST)) else None
    }

    /** Whatever others do to the store, short of moving the latest tag. */
    method Drift()
      requires Valid()
      modifies this
      ensures Valid() && Latest() == old(Latest()) && old(mishaps) <= mishaps
      ensures mishaps == old(mishaps) ==> images == old(images) && tags == old(tags)
    {
      var images': set<string> := *;
      var tags': map<string, string> := *;
      if (forall id <- images' :: IsID(id)) && (forall t <- tags' :: tags'[t] in images')
         && (LATEST in tags' <==> LATEST in tags)
         && (LATEST in tags ==> tags'[LATEST] == tags[LATEST])
      {
        images, tags := images', tags';
        mishaps := mishaps + 1;
      }
    }

    /** A command that changes nothing in the store, and may fail. */
    method Command() returns (ok: bool)
      modifies `mishaps
      ensures mishaps == old(mishaps) + if ok then 0 else 1
    {
      ok := *;
      mishaps := mishaps + if ok then 0 else 1;
    }

    /** `docker image ls`, then `docker image inspect`. */
    method Identify(name: string) returns (answer: Option<Identity>)
      requires Valid()
      modifies this
      ensures Valid() && Latest() == old(Latest())
      ensures answer.Some? ==> answer.value == Resolve(name)
      ensures answer.Some? ==> answer.value == NOBODY || ImageCache.ParseDockerImageID(answer.value.id).Some?
      ensures old(mishaps) <= mishaps
      ensures mishaps == old(mishaps) ==>
                images == old(images) && tags == old(tags) && (answer.None? ==> !Named(old(Resolve(name))))
    {
      Drift();
      var ok := Command();
      var found := Resolve(name);
      return if ok && Named(found) then Some(found) else None;
    }

    /** The last step of every path: one atomic move of the latest tag. */
    method TagLatest(id: string) returns (ok: bool)
      requires Valid()
      modifies this
      ensures Valid()
      ensures !ok ==> Latest() == old(Latest())
      ensures ok ==> Latest() == Some(Describe(id))
      ensures old(mishaps) <= mishaps && (mishaps == old(mishaps) && id in old(images) ==> ok)
    {
      Drift();
      ok := Command();
      ok := ok && id in images;
      if ok {
        tags := tags[LATEST := id];
      }
    }

    /** `docker load`: the archive's image and its cache tag arrive, or part of them does. */
    method Load(archive: Archive) returns (ok: bool)
      requires Valid()
      modifies this
      ensures Valid() && Latest() == old(Latest()) && old(mishaps) <= mishaps
      ensures mishaps == old(mishaps) && IsID(held(archive)) ==>
                ok && held(archive) in images && Resolve(ImageCache.HostImageTag(archive.id)) == Describe(held(archive))
    {
      Drift();
      ok := Command();
      var partly: bool := *;
      if (ok || partly) && IsID(held(archive)) {
        images := images + {held(archive)};
        assert "frridge-mp-cache:"[8] != LATEST[8];
        tags := tags[ImageCache.HostImageTag(archive.id) := held(archive)];
      }
    }

    /** The archive holds the image it is meant to. */
    predicate Good(archive: Archive, inputs: string) {
      Named(Describe(held(archive))) && IsID(held(archive)) && Carries(Describe(held(archive)), archive, inputs)
    }

    predicate GoodBuild(inputs: string) {
      Named(Describe(built)) && IsID(built) && content(built).inputs == inputs
    }

    predicate CanMake(r: Request, host: Option<Host>) {
      if host.Some? && !host.value.build.Unavailable? then
        host.value.build.Fresh? && Good(Archive(host.value.build.id, false), r.inputs)
      else GoodBuild(r.inputs)
    }

    /** With no mishap, whether the request can be met. */
    predicate CanMeet(r: Request, host: Option<Host>, latest: Option<Identity>) {
      if !r.dockerfile then !r.refresh
      else if latest.Some? && !Named(latest.value) then false
      else if !r.refresh && Matches(latest, r) then true
      else if !r.refresh && host.Some? && !Lookup(host.value, r).Absent? then
        var c := Lookup(host.value, r);
        c.Found? && Good(Archive(c.id, c.legacy), r.inputs)
      else CanMake(r, host)
    }

    /** `importGuestImageArchive`. */
    method Import(archive: Archive, inputs: string) returns (ok: bool)
      requires Valid() && archive.id != ""
      modifies this
      ensures Valid()
      ensures !ok ==> Latest() == old(Latest())
      ensures ok ==> Latest().Some? && Carries(Latest().value, archive, inputs)
      ensures old(mishaps) <= mishaps && (mishaps == old(mishaps) && Good(archive, inputs) ==> ok)
    {
      // The archive is copied into the guest, loaded and removed again.
      ok := Command();
      if !ok {
        return;
      }
      ok := Load(archive);
      if !ok {
        return;
      }
      ok := Command();
      if !ok {
        return;
      }
      var answer := Identify(ImageCache.HostImageTag(archive.id));
      if answer.None? {
        return false;
      }
      var info := answer.value;
      if !archive.legacy && (info.id != ImageCache.ID_PREFIX + archive.id || info.inputs != inputs) {
        return false;
      }
      if archive.legacy && info.legacyID != archive.id {
        return false;
      }
      ok := TagLatest(info.id);
    }

    /** `buildGuestImage`: what the identity file names after the build is what gets tagged. */
    method BuildHere(inputs: string) returns (ok: bool)
      requires Valid() && inputs != ""
      modifies this
      ensures Valid()
      ensures !ok ==> Latest() == old(Latest())
      ensures ok ==> Latest().Some? && Latest().value.inputs == inputs
      ensures old(mishaps) <= mishaps && (mishaps == old(mishaps) && GoodBuild(inputs) ==> ok)
    {
      Drift();
      ok := Command();
      var partly: bool := *;
      if (ok || partly) && IsID(built) {
        images := images + {built};
      }
      if !ok {
        return;
      }
      // What the identity file says afterwards, and whether a tag has the ID for a name.
      var named: string := *;
      if named != built || built in tags {
        mishaps := mishaps + 1;
      }
      var answer := Identify(named);
      if answer.None? || answer.value == NOBODY || answer.value.inputs != inputs {
        return false;
      }
      ok := TagLatest(answer.value.id);
    }

    /** What the host's cache decides: an image to import, or an error. */
    method ImportCached(r: Request, host: Host) returns (decided: bool, ok: bool, route: Route)
      requires Valid() && r.inputs != "" && r.legacyID != "" && r.dockerfile && !r.refresh
      modifies this
      ensures Valid() && old(mishaps) <= mishaps
      ensures !decided ==> Lookup(host, r).Absent? && Latest() == old(Latest())
      ensures !ok ==> Latest() == old(Latest())
      ensures decided && ok ==> route.FromCache? && Earned(route, r, Some(host), old(Latest()), Latest())
      ensures decided && mishaps == old(mishaps) ==>
                var c := Lookup(host, r);
                !c.Absent? && (c.Found? && Good(Archive(c.id, c.legacy), r.inputs) ==> ok)
    {
      route := NoDockerfile;
      ok := Command();
      if !ok {
        return true, false, route;
      }
      match Lookup(host, r) {
        case Corrupt => return true, false, route;
        case Absent => return false, false, route;
        case Found(id, legacy) =>
          ok := Import(Archive(id, legacy), r.inputs);
          return true, ok, FromCache(Archive(id, legacy));
      }
    }

    /** A build on the host, or in the guest where the host has no Docker to build with. */
    method MakeImage(r: Request, host: Option<Host>) returns (ok: bool, route: Route)
      requires Valid() && r.inputs != "" && r.dockerfile
      requires host.Some? && host.value.build.Fresh? ==> host.value.build.id != ""
      modifies this
      ensures Valid() && old(mishaps) <= mishaps
      ensures !ok ==> Latest() == old(Latest())
      ensures ok ==> (route.FromHost? || route.FromGuest?) && Earned(route, r, host, old(Latest()), Latest())
      ensures mishaps == old(mishaps) && CanMake(r, host) ==> ok
    {
      route := FromGuest;
      if host.Some? {
        match host.value.build {
          case Fresh(id) =>
            ok := Import(Archive(id, false), r.inputs);
            return ok, FromHost(id);
          case Broken => return false, route;
          case Unavailable =>
        }
      }
      ok := BuildHere(r.inputs);
    }

    /** `ensureGuestImage`. */
    method EnsureImage(r: Request, host: Option<Host>) returns (ok: bool, route: Route)
      requires Valid() && r.inputs != "" && r.legacyID != ""
      requires host.Some? && host.value.build.Fresh? ==> host.value.build.id != ""
      modifies this
      ensures Valid()
      // Whatever goes wrong, the latest tag still names what it named.
      ensures !ok ==> Latest() == old(Latest())
      ensures ok && r.dockerfile ==> Latest().Some? && (Requested(Latest().value, r) || (!r.refresh && LegacyMatch(Latest().value, r)))
      // Each route is open only where the request allows it, and says where the image came from.
      ensures ok ==> Earned(route, r, host, old(Latest()), Latest())
      // A host image known without building it is what an ordinary start uses; a broken one is an error.
      ensures ok && r.dockerfile && !r.refresh && !Matches(old(Latest()), r) && host.Some? ==>
                match ImageCache.Cached(host.value.cache, r.inputs, r.noOverrides, r.legacyID)
                case Found(id, legacy) => route == FromCache(Archive(id, legacy))
                case Absent => true
                case Corrupt => false
      // A guest that already matches is left alone until a refresh.
      ensures !r.refresh && r.dockerfile && Matches(old(Latest()), r) ==>
                Latest() == old(Latest()) && (ok ==> route == Kept)
      // It fails only if a command fails, someone meddles, or there is no right image to be had.
      ensures mishaps == old(mishaps) && CanMeet(r, host, old(Latest())) ==> ok
    {
      route := NoDockerfile;
      if !r.dockerfile {
        return !r.refresh, route;
      }
      var current := Identify(LATEST);
      if current.None? {
        return false, route;
      }
      if !r.refresh {
        if current.value.inputs == r.inputs || (r.noOverrides && current.value.legacyID == r.legacyID) {
          return true, Kept;
        }
        if host.Some? {
          var decided;
          decided, ok, route := ImportCached(r, host.value);
          if decided {
            return;
          }
        }
      }
      ok, route := MakeImage(r, host);
    }
  }

  /** An image's ID is neither empty nor the latest tag. */
  predicate IsID(id: string) {
    id != "" && id != LATEST
  }

  /** Inspection found an image of a proper ID, or nothing. */
  predicate Named(found: Identity) {
    found == NOBODY || ImageCache.ParseDockerImageID(found.id).Some?
  }

  function Lookup(host: Host, r: Request): ImageCache.Cache {
    ImageCache.Cached(host.cache, r.inputs, r.noOverrides, r.legacyID)
  }

  /** What an import checks before it tags. */
  predicate Carries(latest: Identity, archive: Archive, inputs: string) {
    if archive.legacy then latest.legacyID == archive.id
    else latest.id == ImageCache.ID_PREFIX + archive.id && latest.inputs == inputs
  }

  predicate Requested(latest: Identity, r: Request) {
    latest.inputs == r.inputs
  }

  predicate LegacyMatch(latest: Identity, r: Request) {
    r.noOverrides && latest.legacyID == r.legacyID
  }

  predicate Matches(latest: Option<Identity>, r: Request) {
    latest.Some? && (Requested(latest.value, r) || LegacyMatch(latest.value, r))
  }

  ghost predicate Earned(route: Route, r: Request, host: Option<Host>, before: Option<Identity>, after: Option<Identity>) {
    match route
    case NoDockerfile => !r.dockerfile && !r.refresh && after == before
    case Kept => r.dockerfile && !r.refresh && after == before
    case FromCache(archive) =>
      && r.dockerfile && !r.refresh && host.Some? && after.Some?
      && ImageCache.Cached(host.value.cache, r.inputs, r.noOverrides, r.legacyID) == ImageCache.Found(archive.id, archive.legacy)
      && Carries(after.value, archive, r.inputs)
    case FromHost(id) =>
      && r.dockerfile && host.Some? && host.value.build == Fresh(id) && after.Some?
      && Carries(after.value, Archive(id, false), r.inputs)
    case FromGuest =>
      && r.dockerfile && (host.None? || host.value.build.Unavailable?) && after.Some?
      && after.value.inputs == r.inputs
  }
}
