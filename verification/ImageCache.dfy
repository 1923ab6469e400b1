/**
 * The host's cache of companion images (internal/multipass/image_builder.go):
 * archives named by image ID, and lookups from build inputs to image IDs, written by
 * any number of `Build` calls at once.
 *
 * A run is any sequence of actions, each the next step of some call, the end of one,
 * or an image or tag vanishing from Docker.  An action that is not due changes nothing.
 */
module ImageCache {
  import opened Options
  import opened Strings

  // ---------------------------------------------------------------------------
  // Image identities.

  const ID_PREFIX := "sha256:"

  predicate IsLowerHex(c: char) {
    '0' <= c <= '9' || 'a' <= c <= 'f'
  }

  /** Sixty-four lower-case hexadecimal digits. */
  predicate IsImageID(id: string) {
    |id| == 64 && forall i :: 0 <= i < |id| ==> IsLowerHex(id[i])
  }

  function ParseDockerImageID(value: string): Option<string> {
    if HasPrefix(value, ID_PREFIX) && IsImageID(value[|ID_PREFIX|..]) then Some(value[|ID_PREFIX|..]) else None
  }

  /** The identity file Docker writes parses to the identity it was written for. */
  lemma ParseUndoesIdentity(id: string)
    requires IsImageID(id)
    ensures ParseDockerImageID(TrimSpace(ID_PREFIX + id)) == Some(id)
  {
    var s := ID_PREFIX + id;
    assert s[0] == 's' && s[|s| - 1] == id[63];
    TrimSpaceId(s);
    assert s[|ID_PREFIX|..] == id;
  }

  // ---------------------------------------------------------------------------
  // The cache directory.

  /** The files of the directory by role; `token` is the random part of a temporary name. */
  datatype Path = Archive(id: string) | Lookup(inputs: string) | TempTar(token: string) | TempId(token: string)

  function Render(p: Path): string {
    match p
    case Archive(id) => id + ".tar"
    case Lookup(inputs) => inputs + ".id"
    case TempTar(token) => ".refresh-" + token + ".tar"
    case TempId(token) => ".refresh-" + token + ".tar" + ".id"
  }

  /** Archives are named by image IDs, lookups by inputs IDs. */
  predicate ProperPath(p: Path) {
    match p
    case Archive(id) => IsImageID(id)
    case Lookup(inputs) => HasPrefix(inputs, "v2-")
    case TempTar(_) => true
    case TempId(_) => true
  }

  /** Files of different roles, or of different calls, never share a name. */
  lemma RenderInjective(p: Path, q: Path)
    requires ProperPath(p) && ProperPath(q) && Render(p) == Render(q)
    ensures p == q
  {
    var s := Render(p);
    assert p.Archive? ==> IsLowerHex(s[0]);
    assert q.Archive? ==> IsLowerHex(s[0]);
    assert p.Lookup? ==> s[0] == 'v';
    assert q.Lookup? ==> s[0] == 'v';
    assert p.TempTar? || p.TempId? ==> s[0] == '.';
    assert q.TempTar? || q.TempId? ==> s[0] == '.';
    assert p.TempTar? ==> s[|s| - 1] == 'r';
    assert q.TempTar? ==> s[|s| - 1] == 'r';
    assert p.TempId? ==> s[|s| - 1] == 'd';
    assert q.TempId? ==> s[|s| - 1] == 'd';
    match p {
      case Archive(id) => DropTail(id, q.id, ".tar");
      case Lookup(inputs) => DropTail(inputs, q.inputs, ".id");
      case TempTar(token) => DropTail(".refresh-" + token, ".refresh-" + q.token, ".tar"); SameTail(".refresh-", token, q.token);
      case TempId(token) =>
        DropTail(".refresh-" + token + ".tar", ".refresh-" + q.token + ".tar", ".id");
        DropTail(".refresh-" + token, ".refresh-" + q.token, ".tar");
        SameTail(".refresh-", token, q.token);
    }
  }

  lemma SameTail(head: string, a: string, b: string)
    requires head + a == head + b
    ensures a == b
  {
    assert a == (head + a)[|head|..];
    assert b == (head + b)[|head|..];
  }

  datatype File =
    | Tar(image: string)       // a complete archive of one image
    | Fragment(empty: bool)    // an archive not finished, or not even begun
    | Text(content: string)

  /** All that `checkImageArchive` can tell. */
  predicate NonEmpty(f: File) {
    match f
    case Tar(_) => true
    case Fragment(empty) => !empty
    case Text(content) => content != ""
  }

  // ---------------------------------------------------------------------------
  // Calls in progress.

  datatype Phase =
    | Prepared     // the temporary archive exists, empty
    | Built        // the image is built and its identity file written
    | Identified   // the identity is read and parsed
    | Inspected    // Docker confirms identity and inputs
    | Tagged       // the image has its cache tag
    | Saved        // the archive is exported to the temporary file
    | Checked      // ... and is a nonempty regular file
    | Installed    // the archive is renamed into place
    | Published    // the identity file is renamed to the lookup
    | Over         // returned or stopped

  datatype Call = Call(phase: Phase, inputs: string, id: string, published: bool)

  /**
   * The cache directory, Docker's images (by ID) and tags, and all calls ever begun.  An
   * image's ID is a digest of the image, so it decides the inputs the image is labelled with.
   */
  datatype World = World(files: map<Path, File>, images: set<string>, tags: map<string, string>,
                         calls: map<string, Call>, inputsOf: string -> string)

  datatype Action =
    | Begin(token: string, inputs: string)
    | BuildImage(token: string, id: string)
    | BuildBreaks(token: string, text: string)
    | ReadIdentity(token: string)
    | Inspect(token: string)
    | TagImage(token: string)
    | Save(token: string)
    | SaveBreaks(token: string, empty: bool)
    | SaveNothing(token: string)  // the export reports success, and its file is empty
    | CheckArchive(token: string)
    | InstallArchive(token: string)
    | PublishLookup(token: string)
    | Return(token: string)       // success or error: deferred removals run
    | Stop(token: string)         // the process dies where it is
    | DropImage(id: string)
    | DropTag(tag: string)

  function HostImageTag(id: string): string {
    "frridge-mp-cache:" + id
  }

  predicate In(w: World, token: string, phase: Phase) {
    token in w.calls && w.calls[token].phase == phase
  }

  function Move(w: World, token: string, phase: Phase): World
    requires token in w.calls
  {
    w.(calls := w.calls[token := w.calls[token].(phase := phase)])
  }

  /** A temporary name is never handed out twice. */
  function DoBegin(w: World, token: string, inputs: string): World {
    if token in w.calls || !HasPrefix(inputs, "v2-") then w
    else w.(files := w.files[TempTar(token) := Fragment(true)], calls := w.calls[token := Call(Prepared, inputs, "", false)])
  }

  function DoBuild(w: World, token: string, id: string): World {
    if !In(w, token, Prepared) || !IsImageID(id) then w
    else Move(w.(files := w.files[TempId(token) := Text(ID_PREFIX + id)], images := w.images + {id}), token, Built)
  }

  function DoReadIdentity(w: World, token: string): World {
    if In(w, token, Built) && TempId(token) in w.files && w.files[TempId(token)].Text? then
      match ParseDockerImageID(TrimSpace(w.files[TempId(token)].content))
      case None => w
      case Some(id) => w.(calls := w.calls[token := w.calls[token].(phase := Identified, id := id)])
    else w
  }

  function DoInspect(w: World, token: string): World {
    if In(w, token, Identified) && w.calls[token].id in w.images
       && w.inputsOf(w.calls[token].id) == w.calls[token].inputs
    then Move(w, token, Inspected) else w
  }

  function DoTag(w: World, token: string): World {
    if In(w, token, Inspected) && w.calls[token].id in w.images
    then Move(w.(tags := w.tags[HostImageTag(w.calls[token].id) := w.calls[token].id]), token, Tagged) else w
  }

  /** `docker save` exports whatever image the tag names. */
  function DoSave(w: World, token: string): World {
    if In(w, token, Tagged) && HostImageTag(w.calls[token].id) in w.tags
    then Move(w.(files := w.files[TempTar(token) := Tar(w.tags[HostImageTag(w.calls[token].id)])]), token, Saved) else w
  }

  function DoCheck(w: World, token: string): World {
    if In(w, token, Saved) && TempTar(token) in w.files && NonEmpty(w.files[TempTar(token)])
    then Move(w, token, Checked) else w
  }

  function Rename(files: map<Path, File>, source: Path, target: Path): map<Path, File>
    requires source in files
  {
    (files - {source})[target := files[source]]
  }

  function DoInstall(w: World, token: string): World {
    if In(w, token, Checked) && TempTar(token) in w.files
    then Move(w.(files := Rename(w.files, TempTar(token), Archive(w.calls[token].id))), token, Installed) else w
  }

  function DoPublish(w: World, token: string): World {
    if In(w, token, Installed) && TempId(token) in w.files then
      var c := w.calls[token];
      w.(files := Rename(w.files, TempId(token), Lookup(c.inputs)),
         calls := w.calls[token := c.(phase := Published, published := true)])
    else w
  }

  function DoReturn(w: World, token: string): World {
    if token in w.calls && !In(w, token, Over)
    then Move(w.(files := w.files - {TempTar(token), TempId(token)}), token, Over) else w
  }

  function Next(w: World, a: Action): World {
    match a
    case Begin(token, inputs) => DoBegin(w, token, inputs)
    case BuildImage(token, id) => DoBuild(w, token, id)
    case BuildBreaks(token, text) =>
      if In(w, token, Prepared) then w.(files := w.files[TempId(token) := Text(text)]) else w
    case ReadIdentity(token) => DoReadIdentity(w, token)
    case Inspect(token) => DoInspect(w, token)
    case TagImage(token) => DoTag(w, token)
    case Save(token) => DoSave(w, token)
    case SaveBreaks(token, empty) => if In(w, token, Tagged) then w.(files := w.files[TempTar(token) := Fragment(empty)]) else w
    case SaveNothing(token) =>
      if In(w, token, Tagged) then Move(w.(files := w.files[TempTar(token) := Fragment(true)]), token, Saved) else w
    case CheckArchive(token) => DoCheck(w, token)
    case InstallArchive(token) => DoInstall(w, token)
    case PublishLookup(token) => DoPublish(w, token)
    case Return(token) => DoReturn(w, token)
    case Stop(token) => if token in w.calls then Move(w, token, Over) else w
    case DropImage(id) => w.(images := w.images - {id})
    case DropTag(tag) => w.(tags := w.tags - {tag})
  }

  /** The last rename of a call. */
  predicate Renames(w: World, a: Action, token: string) {
    a == PublishLookup(token) && In(w, token, Installed) && TempId(token) in w.files
  }

  /** A step of this call, rather than of another or of Docker. */
  predicate ByCall(a: Action, token: string) {
    !a.DropImage? && !a.DropTag? && a.token == token
  }

  function Run(w: World, actions: seq<Action>): World {
    if actions == [] then w else Next(Run(w, actions[..|actions| - 1]), actions[|actions| - 1])
  }

  // ---------------------------------------------------------------------------
  // The invariant.

  /** The archive of `id` is installed and complete. */
  predicate Holds(files: map<Path, File>, id: string) {
    Archive(id) in files && files[Archive(id)] == Tar(id)
  }

  /** A lookup's text is the identity of an image of its inputs whose archive is installed. */
  ghost predicate Answers(w: World, inputs: string, f: File) {
    exists id :: IsImageID(id) && f == Text(ID_PREFIX + id) && Holds(w.files, id) && w.inputsOf(id) == inputs
  }

  ghost predicate LookupsAnswered(w: World) {
    forall inputs :: Lookup(inputs) in w.files ==> Answers(w, inputs, w.files[Lookup(inputs)])
  }

  /** Nothing but this builder uses the cache's tags. */
  ghost predicate TagsFaithful(w: World) {
    forall id :: HostImageTag(id) in w.tags ==> w.tags[HostImageTag(id)] == id
  }

  /** What a call has achieved by each phase. */
  ghost predicate CallOk(w: World, token: string, c: Call) {
    match c.phase
    case Prepared => !c.published
    case Built => !c.published && exists id :: IsImageID(id) && TempId(token) in w.files && w.files[TempId(token)] == Text(ID_PREFIX + id)
    case Over => true
    case Published => c.published && IsImageID(c.id) && Holds(w.files, c.id) && w.inputsOf(c.id) == c.inputs
    case _ =>
      && !c.published && IsImageID(c.id)
      && TempId(token) in w.files && w.files[TempId(token)] == Text(ID_PREFIX + c.id)
      && (!c.phase.Identified? ==> w.inputsOf(c.id) == c.inputs)
      && (c.phase.Saved? || c.phase.Checked? ==>
            && TempTar(token) in w.files
            && (w.files[TempTar(token)] == Tar(c.id) || (c.phase.Saved? && w.files[TempTar(token)] == Fragment(true))))
      && (c.phase.Installed? ==> Holds(w.files, c.id))
  }

  ghost predicate CallsOk(w: World) {
    forall token :: token in w.calls ==> CallOk(w, token, w.calls[token])
  }

  ghost predicate Inv(w: World) {
    LookupsAnswered(w) && TagsFaithful(w) && CallsOk(w)
  }

  lemma OtherStepsKeepCall(w: World, a: Action, token: string)
    requires !ByCall(a, token)
    ensures token in Next(w, a).calls <==> token in w.calls
    ensures token in w.calls ==> Next(w, a).calls[token] == w.calls[token]
  {
  }

  /** The files other calls rely on are kept. */
  ghost predicate FilesKept(f: map<Path, File>, f': map<Path, File>, token: string) {
    && (forall t :: t != token && TempTar(t) in f ==> TempTar(t) in f' && f'[TempTar(t)] == f[TempTar(t)])
    && (forall t :: t != token && TempId(t) in f ==> TempId(t) in f' && f'[TempId(t)] == f[TempId(t)])
    && (forall id :: Holds(f, id) ==> Holds(f', id))
  }

  /** Other calls stay where they are, and keep what they have. */
  ghost predicate KeepsOthers(w: World, w': World, token: string) {
    && (forall t :: t in w.calls && t != token ==> t in w'.calls && w'.calls[t] == w.calls[t])
    && (forall t :: t in w'.calls && t != token ==> t in w.calls)
    && FilesKept(w.files, w'.files, token) && w'.inputsOf == w.inputsOf
  }

  lemma OthersStayOk(w: World, w': World, token: string)
    requires CallsOk(w) && KeepsOthers(w, w', token)
    requires token in w'.calls ==> CallOk(w', token, w'.calls[token])
    ensures CallsOk(w')
  {
    forall t | t in w'.calls && t != token ensures CallOk(w', t, w'.calls[t]) {
      assert CallOk(w, t, w.calls[t]);
    }
  }

  lemma AnswersSurvive(w: World, w': World)
    requires LookupsAnswered(w)
    requires w'.inputsOf == w.inputsOf && forall id :: Holds(w.files, id) ==> Holds(w'.files, id)
    requires LookupsKept(w, w')
    ensures LookupsAnswered(w')
  {
    forall i | Lookup(i) in w'.files ensures Answers(w', i, w'.files[Lookup(i)]) {
      if Lookup(i) in w.files && w'.files[Lookup(i)] == w.files[Lookup(i)] {
        assert Answers(w, i, w.files[Lookup(i)]);
      }
    }
  }

  /** The paths a step may write or remove. */
  function Touched(w: World, a: Action): set<Path> {
    match a
    case Begin(token, _) => {TempTar(token)}
    case BuildImage(token, _) => {TempId(token)}
    case BuildBreaks(token, _) => {TempId(token)}
    case Save(token) => {TempTar(token)}
    case SaveBreaks(token, _) => {TempTar(token)}
    case SaveNothing(token) => {TempTar(token)}
    case InstallArchive(token) => if In(w, token, Checked) then {TempTar(token), Archive(w.calls[token].id)} else {}
    case PublishLookup(token) => if Renames(w, a, token) then {TempId(token), Lookup(w.calls[token].inputs)} else {}
    case Return(token) => {TempTar(token), TempId(token)}
    case _ => {}
  }

  /** A step touches nothing else. */
  lemma StepTouches(w: World, a: Action, p: Path)
    requires p !in Touched(w, a)
    ensures p in Next(w, a).files <==> p in w.files
    ensures p in w.files ==> Next(w, a).files[p] == w.files[p]
  {
  }

  /** An archive is replaced only by a complete one. */
  lemma StepKeepsArchives(w: World, a: Action, id: string)
    requires CallsOk(w) && Holds(w.files, id)
    ensures Holds(Next(w, a).files, id)
  {
    if Archive(id) !in Touched(w, a) {
      StepTouches(w, a, Archive(id));
    } else {
      assert CallOk(w, a.token, w.calls[a.token]);
    }
  }

  lemma StepKeepsFiles(w: World, token: string, a: Action)
    requires ByCall(a, token) && CallsOk(w)
    ensures FilesKept(w.files, Next(w, a).files, token)
  {
    forall t | t != token && TempTar(t) in w.files
      ensures TempTar(t) in Next(w, a).files && Next(w, a).files[TempTar(t)] == w.files[TempTar(t)] {
      StepTouches(w, a, TempTar(t));
    }
    forall t | t != token && TempId(t) in w.files
      ensures TempId(t) in Next(w, a).files && Next(w, a).files[TempId(t)] == w.files[TempId(t)] {
      StepTouches(w, a, TempId(t));
    }
    forall id | Holds(w.files, id) ensures Holds(Next(w, a).files, id) {
      StepKeepsArchives(w, a, id);
    }
  }

  lemma StepKeepsLabels(w: World, a: Action)
    ensures Next(w, a).inputsOf == w.inputsOf
  {
  }

  /** No step of one call takes anything from another. */
  lemma StepKeepsOthers(w: World, token: string, a: Action)
    requires ByCall(a, token) && CallsOk(w)
    ensures KeepsOthers(w, Next(w, a), token)
  {
    StepKeepsFiles(w, token, a);
    StepKeepsLabels(w, a);
    forall t | t != token
      ensures t in Next(w, a).calls <==> t in w.calls
      ensures t in w.calls ==> Next(w, a).calls[t] == w.calls[t] {
      OtherStepsKeepCall(w, a, t);
    }
  }

  /** Every lookup is an old one, or is answered. */
  ghost predicate LookupsKept(w: World, w': World) {
    forall i :: Lookup(i) in w'.files ==>
      (Lookup(i) in w.files && w'.files[Lookup(i)] == w.files[Lookup(i)]) || Answers(w', i, w'.files[Lookup(i)])
  }

  /** The identity a call is about to publish names an archive that is installed, and stays so. */
  lemma InstalledIdentity(w: World, token: string)
    requires CallsOk(w) && In(w, token, Installed)
    ensures TempId(token) in w.files && w.files[TempId(token)] == Text(ID_PREFIX + w.calls[token].id)
    ensures IsImageID(w.calls[token].id) && Holds(w.files, w.calls[token].id) && w.inputsOf(w.calls[token].id) == w.calls[token].inputs
  {
    assert CallOk(w, token, w.calls[token]);
  }

  lemma StepKeepsLookups(w: World, token: string, a: Action)
    requires ByCall(a, token) && CallsOk(w)
    ensures LookupsKept(w, Next(w, a))
  {
    if Renames(w, a, token) {
      InstalledIdentity(w, token);
      StepKeepsArchives(w, a, w.calls[token].id);
      assert Answers(Next(w, a), w.calls[token].inputs, Text(ID_PREFIX + w.calls[token].id));
    }
    forall i | Lookup(i) in Next(w, a).files
      ensures (Lookup(i) in w.files && Next(w, a).files[Lookup(i)] == w.files[Lookup(i)])
              || Answers(Next(w, a), i, Next(w, a).files[Lookup(i)]) {
      if Lookup(i) !in Touched(w, a) {
        StepTouches(w, a, Lookup(i));
      }
    }
  }

  lemma TagsAreInjective()
    ensures forall a, b :: HostImageTag(a) == HostImageTag(b) ==> a == b
  {
    forall a, b | HostImageTag(a) == HostImageTag(b) ensures a == b {
      SameTail("frridge-mp-cache:", a, b);
    }
  }

  lemma StepKeepsTags(w: World, token: string, a: Action)
    requires ByCall(a, token) && TagsFaithful(w)
    ensures TagsFaithful(Next(w, a))
  {
    if a.TagImage? {
      TagsAreInjective();
    }
  }

  /** Each step brings its call to what the next phase asks for. */
  lemma EarlyStepOk(w: World, token: string, a: Action)
    requires ByCall(a, token) && CallsOk(w)
    requires a.Begin? || a.BuildImage? || a.BuildBreaks? || a.ReadIdentity? || a.Inspect? || a.TagImage?
    ensures var w' := Next(w, a); token in w'.calls ==> CallOk(w', token, w'.calls[token])
  {
    if token in w.calls {
      assert CallOk(w, token, w.calls[token]);
    }
    if a.ReadIdentity? && Next(w, a) != w {
      var id :| IsImageID(id) && TempId(token) in w.files && w.files[TempId(token)] == Text(ID_PREFIX + id);
      ParseUndoesIdentity(id);
    }
    if a.BuildImage? && Next(w, a) != w {
      assert Next(w, a).files[TempId(token)] == Text(ID_PREFIX + a.id);
    }
  }

  lemma SavingStepOk(w: World, token: string, a: Action)
    requires ByCall(a, token) && CallsOk(w) && TagsFaithful(w)
    requires a.Save? || a.SaveBreaks? || a.SaveNothing? || a.CheckArchive?
    ensures var w' := Next(w, a); token in w'.calls ==> CallOk(w', token, w'.calls[token])
  {
    if token in w.calls {
      assert CallOk(w, token, w.calls[token]);
    }
  }

  lemma LateStepOk(w: World, token: string, a: Action)
    requires ByCall(a, token) && CallsOk(w)
    requires a.InstallArchive? || a.PublishLookup?
    ensures var w' := Next(w, a); token in w'.calls ==> CallOk(w', token, w'.calls[token])
  {
    if token in w.calls {
      assert CallOk(w, token, w.calls[token]);
    }
  }

  lemma LeavingStepOk(w: World, token: string, a: Action)
    requires ByCall(a, token) && CallsOk(w) && (a.Return? || a.Stop?)
    ensures var w' := Next(w, a); token in w'.calls ==> CallOk(w', token, w'.calls[token])
  {
    if token in w.calls {
      assert CallOk(w, token, w.calls[token]);
    }
  }

  /** A step of a call keeps the invariant part by part. */
  lemma CallStepKeepsInv(w: World, token: string, a: Action)
    requires Inv(w) && ByCall(a, token)
    ensures Inv(Next(w, a))
  {
    StepKeepsOthers(w, token, a);
    StepKeepsLookups(w, token, a);
    StepKeepsTags(w, token, a);
    if a.Begin? || a.BuildImage? || a.BuildBreaks? || a.ReadIdentity? || a.Inspect? || a.TagImage? {
      EarlyStepOk(w, token, a);
    } else if a.Save? || a.SaveBreaks? || a.SaveNothing? || a.CheckArchive? {
      SavingStepOk(w, token, a);
    } else if a.Return? || a.Stop? {
      LeavingStepOk(w, token, a);
    } else {
      LateStepOk(w, token, a);
    }
    InvFromParts(w, Next(w, a), token);
  }

  lemma InvFromParts(w: World, w': World, token: string)
    requires Inv(w) && KeepsOthers(w, w', token) && LookupsKept(w, w') && TagsFaithful(w')
    requires token in w'.calls ==> CallOk(w', token, w'.calls[token])
    ensures Inv(w')
  {
    OthersStayOk(w, w', token);
    AnswersSurvive(w, w');
  }

  lemma StepKeepsInv(w: World, a: Action)
    requires Inv(w)
    ensures Inv(Next(w, a))
  {
    if a.DropImage? || a.DropTag? {
      QuietStep(w, Next(w, a));
    } else {
      CallStepKeepsInv(w, a.token, a);
    }
  }

  lemma QuietStep(w: World, w': World)
    requires CallsOk(w) && LookupsAnswered(w) && w'.files == w.files && w'.calls == w.calls && w'.inputsOf == w.inputsOf
    ensures CallsOk(w') && LookupsAnswered(w')
  {
    forall t | t in w'.calls ensures CallOk(w', t, w'.calls[t]) {
      assert CallOk(w, t, w.calls[t]);
    }
    AnswersSurvive(w, w');
  }

  /** However calls interleave and wherever each stops, the cache stays sound. */
  lemma {:induction false} RunKeepsInv(w: World, actions: seq<Action>)
    requires Inv(w)
    ensures Inv(Run(w, actions))
    decreases |actions|
  {
    if actions != [] {
      RunKeepsInv(w, actions[..|actions| - 1]);
      StepKeepsInv(Run(w, actions[..|actions| - 1]), actions[|actions| - 1]);
    }
  }

  lemma {:induction false} RunKeepsInputs(w: World, actions: seq<Action>)
    ensures Run(w, actions).inputsOf == w.inputsOf
    decreases |actions|
  {
    if actions != [] {
      RunKeepsInputs(w, actions[..|actions| - 1]);
      StepKeepsLabels(Run(w, actions[..|actions| - 1]), actions[|actions| - 1]);
    }
  }

  // ---------------------------------------------------------------------------
  // Lookups.

  datatype Cache = Found(id: string, legacy: bool) | Absent | Corrupt

  /** `Cached`: `legacyID` names the archive an earlier release would have written. */
  function Cached(w: World, inputs: string, noOverrides: bool, legacyID: string): Cache {
    if Lookup(inputs) in w.files then
      var data := if w.files[Lookup(inputs)].Text? then w.files[Lookup(inputs)].content else "";
      match ParseDockerImageID(TrimSpace(data))
      case None => Corrupt
      case Some(id) =>
        if Archive(id) in w.files && NonEmpty(w.files[Archive(id)]) then Found(id, false) else Corrupt
    else if !noOverrides then Absent
    else if Archive(legacyID) !in w.files then Absent
    else if NonEmpty(w.files[Archive(legacyID)]) then Found(legacyID, true) else Corrupt
  }

  /** At every moment of every run, a lookup that exists finds a complete archive of the image it names. */
  lemma PublishedLookupsAreUsable(start: World, actions: seq<Action>, inputs: string, noOverrides: bool, legacyID: string)
    requires Inv(start)
    ensures var w := Run(start, actions);
            var c := Cached(w, inputs, noOverrides, legacyID);
            Lookup(inputs) in w.files ==>
              c.Found? && !c.legacy && Holds(w.files, c.id) && w.inputsOf(c.id) == inputs
  {
    RunKeepsInv(start, actions);
    var w := Run(start, actions);
    if Lookup(inputs) in w.files {
      assert Answers(w, inputs, w.files[Lookup(inputs)]);
      var id :| IsImageID(id) && w.files[Lookup(inputs)] == Text(ID_PREFIX + id) && Holds(w.files, id) && w.inputsOf(id) == inputs;
      ParseUndoesIdentity(id);
    }
  }

  /** The lookups alone. */
  function Lookups(files: map<Path, File>): map<string, File> {
    map p | p in files && p.Lookup? :: p.inputs := files[p]
  }

  datatype Publication = Publication(token: string, inputs: string, id: string)

  /** The last renames of a run, in order. */
  function Publications(w: World, actions: seq<Action>): seq<Publication> {
    if actions == [] then []
    else
      var init, a := actions[..|actions| - 1], actions[|actions| - 1];
      var before := Run(w, init);
      Publications(w, init)
      + if a.PublishLookup? && Renames(before, a, a.token)
        then [Publication(a.token, before.calls[a.token].inputs, before.calls[a.token].id)] else []
  }

  function Publish(m: map<string, File>, ps: seq<Publication>): map<string, File> {
    if ps == [] then m
    else Publish(m, ps[..|ps| - 1])[ps[|ps| - 1].inputs := Text(ID_PREFIX + ps[|ps| - 1].id)]
  }

  lemma LookupsHave(files: map<Path, File>, i: string)
    ensures i in Lookups(files) <==> Lookup(i) in files
    ensures i in Lookups(files) ==> Lookups(files)[i] == files[Lookup(i)]
  {
    assert Lookup(i).inputs == i;
  }

  ghost predicate SameLookups(f: map<Path, File>, f': map<Path, File>) {
    && (forall i :: Lookup(i) in f' <==> Lookup(i) in f)
    && (forall i :: Lookup(i) in f ==> f'[Lookup(i)] == f[Lookup(i)])
  }

  lemma LookupsAgree(f: map<Path, File>, f': map<Path, File>)
    requires SameLookups(f, f')
    ensures Lookups(f') == Lookups(f)
  {
    forall i ensures i in Lookups(f') <==> i in Lookups(f)
             ensures i in Lookups(f) ==> Lookups(f')[i] == Lookups(f)[i] {
      LookupsHave(f, i);
      LookupsHave(f', i);
    }
  }

  lemma OtherStepsKeepLookups(w: World, a: Action)
    requires a.PublishLookup? ==> !Renames(w, a, a.token)
    ensures Lookups(Next(w, a).files) == Lookups(w.files)
  {
    forall i
      ensures Lookup(i) in Next(w, a).files <==> Lookup(i) in w.files
      ensures Lookup(i) in w.files ==> Next(w, a).files[Lookup(i)] == w.files[Lookup(i)] {
      StepTouches(w, a, Lookup(i));
    }
    LookupsAgree(w.files, Next(w, a).files);
  }

  lemma RenameWrites(f: map<Path, File>, source: Path, inputs: string)
    requires source in f && !source.Lookup?
    ensures Lookups(Rename(f, source, Lookup(inputs))) == Lookups(f)[inputs := f[source]]
  {
    var f' := Rename(f, source, Lookup(inputs));
    var expected := Lookups(f)[inputs := f[source]];
    forall i ensures i in Lookups(f') <==> i in expected
             ensures i in expected ==> Lookups(f')[i] == expected[i] {
      LookupsHave(f, i);
      LookupsHave(f', i);
    }
  }

  lemma PublishIsRename(w: World, token: string)
    requires In(w, token, Installed) && TempId(token) in w.files
    ensures Next(w, PublishLookup(token)).files == Rename(w.files, TempId(token), Lookup(w.calls[token].inputs))
  {
  }

  lemma PublishStepWrites(w: World, token: string)
    requires CallsOk(w) && In(w, token, Installed) && TempId(token) in w.files
    ensures Lookups(Next(w, PublishLookup(token)).files) ==
            Lookups(w.files)[w.calls[token].inputs := Text(ID_PREFIX + w.calls[token].id)]
  {
    InstalledIdentity(w, token);
    RenameWrites(w.files, TempId(token), w.calls[token].inputs);
    PublishIsRename(w, token);
  }

  /** The lookups at the end of a run are those at its start, changed by its last renames and nothing else. */
  lemma {:induction false} LookupsAreWhatWasPublished(w: World, actions: seq<Action>)
    requires Inv(w)
    ensures Lookups(Run(w, actions).files) == Publish(Lookups(w.files), Publications(w, actions))
    decreases |actions|
  {
    if actions != [] {
      var init, a := actions[..|actions| - 1], actions[|actions| - 1];
      var before := Run(w, init);
      LookupsAreWhatWasPublished(w, init);
      RunKeepsInv(w, init);
      var ps := Publications(w, actions);
      if a.PublishLookup? && Renames(before, a, a.token) {
        PublishStepWrites(before, a.token);
        assert ps[..|ps| - 1] == Publications(w, init);
      } else {
        OtherStepsKeepLookups(before, a);
        assert ps == Publications(w, init);
      }
    }
  }

  ghost predicate PublishedBy(ps: seq<Publication>, token: string) {
    exists i :: 0 <= i < |ps| && ps[i].token == token
  }

  lemma PublishedBySnoc(ps: seq<Publication>, p: Publication, token: string)
    ensures PublishedBy(ps + [p], token) <==> PublishedBy(ps, token) || p.token == token
  {
    var qs := ps + [p];
    assert qs[|ps|] == p;
    if i :| 0 <= i < |ps| && ps[i].token == token {
      assert qs[i].token == token;
    }
  }

  predicate Done(w: World, token: string) {
    token in w.calls && w.calls[token].published && (w.calls[token].phase.Published? || w.calls[token].phase.Over?)
  }

  lemma DoneStaysDone(w: World, a: Action, token: string)
    requires Done(w, token)
    ensures var w' := Next(w, a);
            Done(w', token) && w'.calls[token].inputs == w.calls[token].inputs && w'.calls[token].id == w.calls[token].id
  {
    if !ByCall(a, token) {
      OtherStepsKeepCall(w, a, token);
    }
  }

  lemma PublishedFlagStays(w: World, a: Action, token: string)
    requires !Renames(w, a, token)
    ensures (token in Next(w, a).calls && Next(w, a).calls[token].published) <==> (token in w.calls && w.calls[token].published)
  {
    if !ByCall(a, token) {
      OtherStepsKeepCall(w, a, token);
    }
  }

  /**
   * A call has a share in the lookups exactly when it got as far as its last rename,
   * and its share is then the image it built for the inputs it was called with.
   */
  lemma {:induction false} OnlyPublishersPublish(w: World, actions: seq<Action>, token: string)
    requires token !in w.calls
    ensures var after := Run(w, actions);
            var published := token in after.calls && after.calls[token].published;
            && (published <==> PublishedBy(Publications(w, actions), token))
            && (published ==>
                 && Done(after, token)
                 && Publication(token, after.calls[token].inputs, after.calls[token].id) in Publications(w, actions))
    decreases |actions|
  {
    if actions != [] {
      var init, a := actions[..|actions| - 1], actions[|actions| - 1];
      OnlyPublishersPublish(w, init, token);
      var before := Run(w, init);
      var ps, qs := Publications(w, init), Publications(w, actions);
      if a.PublishLookup? && Renames(before, a, a.token) {
        var p := Publication(a.token, before.calls[a.token].inputs, before.calls[a.token].id);
        assert qs == ps + [p];
        PublishedBySnoc(ps, p, token);
      } else {
        assert qs == ps;
      }
      if !Renames(before, a, token) {
        PublishedFlagStays(before, a, token);
        if token in before.calls && before.calls[token].published {
          DoneStaysDone(before, a, token);
        }
      }
    }
  }

  lemma CallsStay(w: World, a: Action)
    ensures w.calls.Keys <= Next(w, a).calls.Keys
  {
  }

  lemma {:induction false} CallsAreRemembered(w: World, actions: seq<Action>)
    ensures w.calls.Keys <= Run(w, actions).calls.Keys
    decreases |actions|
  {
    if actions != [] {
      CallsAreRemembered(w, actions[..|actions| - 1]);
      CallsStay(Run(w, actions[..|actions| - 1]), actions[|actions| - 1]);
    }
  }

  /** Leaving changes neither what a call was for nor what is installed. */
  lemma LeavingKeeps(w: World, token: string, stops: bool)
    requires token in w.calls
    ensures var w' := Next(w, if stops then Stop(token) else Return(token));
            && token in w'.calls && w'.calls[token].published == w.calls[token].published
            && w'.calls[token].inputs == w.calls[token].inputs && w'.calls[token].id == w.calls[token].id
            && (forall p: Path :: p in w.files && p.Archive? ==> p in w'.files && w'.files[p] == w.files[p])
  {
  }

  /** A call that has published nothing publishes nothing by another step, and keeps its inputs. */
  lemma OwnStepStaysPending(w: World, a: Action, token: string, inputs: string)
    requires ByCall(a, token) && !a.PublishLookup? && (a.Begin? ==> a.inputs == inputs)
    requires token in w.calls ==>
               !w.calls[token].published && !w.calls[token].phase.Published? && w.calls[token].inputs == inputs
    ensures var w' := Next(w, a);
            token in w'.calls ==>
              !w'.calls[token].published && !w'.calls[token].phase.Published? && w'.calls[token].inputs == inputs
  {
  }

  lemma PublishedMeansInstalled(start: World, actions: seq<Action>, token: string)
    requires Inv(start) && In(Run(start, actions), token, Published)
    ensures var w := Run(start, actions);
            && w.calls[token].published && IsImageID(w.calls[token].id) && Holds(w.files, w.calls[token].id)
            && w.inputsOf(w.calls[token].id) == w.calls[token].inputs
  {
    RunKeepsInv(start, actions);
    var w := Run(start, actions);
    assert CallOk(w, token, w.calls[token]);
  }

  // ---------------------------------------------------------------------------
  // Progress.

  /** A call has come as far as `phase` with one image, and Docker has what the next step needs. */
  ghost predicate OnTrack(w: World, token: string, inputs: string, image: string, phase: Phase) {
    && In(w, token, phase) && w.calls[token].inputs == inputs
    && (phase.Built? ==> TempId(token) in w.files && w.files[TempId(token)] == Text(ID_PREFIX + image))
    && (!phase.Prepared? && !phase.Built? ==> w.calls[token].id == image)
    && (phase.Built? || phase.Identified? || phase.Inspected? ==> image in w.images)
    && (phase.Tagged? ==> HostImageTag(image) in w.tags)
    && (phase.Saved? ==> TempTar(token) in w.files && w.files[TempTar(token)] == Tar(image))
  }

  /** The step that comes after a phase, and the phase it leads to. */
  predicate Leads(a: Action, token: string, image: string, prev: Phase, phase: Phase) {
    match prev
    case Prepared => a == BuildImage(token, image) && phase == Built
    case Built => a == ReadIdentity(token) && phase == Identified
    case Identified => a == Inspect(token) && phase == Inspected
    case Inspected => a == TagImage(token) && phase == Tagged
    case Tagged => a == Save(token) && phase == Phase.Saved
    case Saved => a == CheckArchive(token) && phase == Checked
    case Checked => a == InstallArchive(token) && phase == Installed
    case Installed => a == PublishLookup(token) && phase == Published
    case _ => false
  }

  lemma BeginsOnTrack(w: World, token: string, inputs: string, image: string)
    requires token !in w.calls && HasPrefix(inputs, "v2-")
    ensures OnTrack(Next(w, Begin(token, inputs)), token, inputs, image, Prepared)
  {
  }

  lemma EarlyAdvance(w: World, a: Action, token: string, inputs: string, image: string, prev: Phase, phase: Phase)
    requires OnTrack(w, token, inputs, image, prev) && Leads(a, token, image, prev, phase)
    requires prev.Prepared? || prev.Built? || prev.Identified? || prev.Inspected?
    requires IsImageID(image) && w.inputsOf(image) == inputs
    ensures OnTrack(Next(w, a), token, inputs, image, phase)
  {
    ParseUndoesIdentity(image);
  }

  lemma LateAdvance(w: World, a: Action, token: string, inputs: string, image: string, prev: Phase, phase: Phase)
    requires Inv(w) && OnTrack(w, token, inputs, image, prev) && Leads(a, token, image, prev, phase)
    requires !(prev.Prepared? || prev.Built? || prev.Identified? || prev.Inspected?)
    ensures OnTrack(Next(w, a), token, inputs, image, phase)
  {
    assert CallOk(w, token, w.calls[token]);
  }

  /** A due step of a call, on an image of its inputs, brings it further. */
  lemma Advance(w: World, a: Action, token: string, inputs: string, image: string, prev: Phase, phase: Phase)
    requires Inv(w) && OnTrack(w, token, inputs, image, prev) && Leads(a, token, image, prev, phase)
    requires IsImageID(image) && w.inputsOf(image) == inputs
    ensures OnTrack(Next(w, a), token, inputs, image, phase)
  {
    if prev.Prepared? || prev.Built? || prev.Identified? || prev.Inspected? {
      EarlyAdvance(w, a, token, inputs, image, prev, phase);
    } else {
      LateAdvance(w, a, token, inputs, image, prev, phase);
    }
  }

  /** Docker forgets the image, or its cache tag. */
  predicate Drops(a: Action, image: string) {
    a == DropImage(image) || a == DropTag(HostImageTag(image))
  }

  predicate NoneDrops(actions: seq<Action>, mark: nat, image: string) {
    forall i :: mark <= i < |actions| ==> !Drops(actions[i], image)
  }

  lemma NoneDropsBefore(earlier: seq<Action>, actions: seq<Action>, mark: nat, image: string)
    requires earlier <= actions && NoneDrops(actions, mark, image)
    ensures NoneDrops(earlier, mark, image)
  {
    assert forall i :: 0 <= i < |earlier| ==> earlier[i] == actions[i];
  }

  lemma OneDrops(actions: seq<Action>, a: Action, mark: nat, image: string)
    requires mark <= |actions| && NoneDrops(actions + [a], mark, image)
    ensures NoneDrops(actions, mark, image) && !Drops(a, image)
  {
    NoneDropsBefore(actions, actions + [a], mark, image);
    assert (actions + [a])[|actions|] == a;
  }

  lemma OthersKeepDocker(w: World, a: Action, image: string)
    requires !Drops(a, image)
    ensures image in w.images ==> image in Next(w, a).images
    ensures HostImageTag(image) in w.tags ==> HostImageTag(image) in Next(w, a).tags
  {
  }

  /** Steps of others do not throw a call back, unless they are Docker's forgetting. */
  lemma OthersKeepTrack(w: World, a: Action, token: string, inputs: string, image: string, phase: Phase)
    requires Inv(w) && !ByCall(a, token) && !Drops(a, image) && OnTrack(w, token, inputs, image, phase)
    ensures OnTrack(Next(w, a), token, inputs, image, phase)
  {
    OtherStepsKeepCall(w, a, token);
    OthersKeepDocker(w, a, image);
    OthersKeepTemporaries(w, a, token);
  }

  lemma OthersKeepTemporaries(w: World, a: Action, token: string)
    requires !ByCall(a, token)
    ensures TempId(token) in w.files ==> TempId(token) in Next(w, a).files && Next(w, a).files[TempId(token)] == w.files[TempId(token)]
    ensures TempTar(token) in w.files ==> TempTar(token) in Next(w, a).files && Next(w, a).files[TempTar(token)] == w.files[TempTar(token)]
  {
    StepTouches(w, a, TempId(token));
    StepTouches(w, a, TempTar(token));
  }

  // ---------------------------------------------------------------------------
  // One call among the others.

  class ImageBuilder {
    var world: World
    ghost const start: World
    ghost var trace: seq<Action>
    ghost var failures: nat   // operations of calls driven here that failed

    ghost predicate Valid()
      reads this
    {
      Inv(start) && world == Run(start, trace)
    }

    constructor (initial: World)
      requires Inv(initial)
      ensures Valid() && world == start == initial && trace == [] && failures == 0
    {
      world, start, trace, failures := initial, initial, [], 0;
    }

    method Take(a: Action)
      requires Valid()
      modifies `world, `trace
      ensures Valid() && trace == old(trace) + [a] && world == Next(old(world), a)
    {
      world, trace := Next(world, a), trace + [a];
      assert trace[..|trace| - 1] == old(trace);
    }

    /** Whether an operation fails. */
    method Fails() returns (fails: bool)
      modifies `failures
      ensures failures == old(failures) + if fails then 1 else 0
    {
      fails := *;
      if fails {
        failures := failures + 1;
      }
    }

    /** Since a moment nothing of this call failed and Docker did not lose the image, which is one of the inputs asked for. */
    ghost predicate Fine(mark: nat, failed: nat, inputs: string, image: string)
      reads this
    {
      && failures == failed && HasPrefix(inputs, "v2-") && IsImageID(image) && start.inputsOf(image) == inputs
      && NoneDrops(trace, mark, image)
    }

    method TakeOther(a: Action, token: string, ghost inputs: string, ghost image: string, ghost phase: Phase)
      requires Valid() && !ByCall(a, token)
      modifies `world, `trace
      ensures Valid() && trace == old(trace) + [a]
      ensures token in world.calls <==> token in old(world.calls)
      ensures token in world.calls ==> world.calls[token] == old(world).calls[token]
      ensures !Drops(a, image) && OnTrack(old(world), token, inputs, image, phase) ==> OnTrack(world, token, inputs, image, phase)
    {
      OtherStepsKeepCall(world, a, token);
      RunKeepsInv(start, trace);
      if !Drops(a, image) && OnTrack(world, token, inputs, image, phase) {
        OthersKeepTrack(world, a, token, inputs, image, phase);
      }
      Take(a);
    }

    /** The deferred removals run, or the process dies before they do. */
    method Leave(token: string)
      requires Valid() && token in world.calls
      modifies `world, `trace
      ensures Valid() && old(trace) <= trace
      ensures token in world.calls && world.calls[token].published == old(world).calls[token].published
      ensures world.calls[token].inputs == old(world).calls[token].inputs && world.calls[token].id == old(world).calls[token].id
      ensures forall p: Path :: p in old(world).files && p.Archive? ==> p in world.files && world.files[p] == old(world).files[p]
    {
      var stops: bool := *;
      LeavingKeeps(world, token, stops);
      Take(if stops then Stop(token) else Return(token));
    }

    /** Any number of steps of other calls, and of Docker forgetting images and tags. */
    method Others(token: string, ghost mark: nat, ghost failed: nat, ghost inputs: string, ghost image: string, ghost phase: Phase)
      requires Valid() && mark <= |trace|
      modifies `world, `trace
      ensures Valid() && old(trace) <= trace
      ensures token in world.calls <==> token in old(world.calls)
      ensures token in world.calls ==> world.calls[token] == old(world).calls[token]
      ensures Fine(mark, failed, inputs, image) ==> old(Fine(mark, failed, inputs, image))
      ensures Fine(mark, failed, inputs, image) && OnTrack(old(world), token, inputs, image, phase) ==>
                OnTrack(world, token, inputs, image, phase)
    {
      var n: int := *;
      while 0 < n
        invariant Valid() && old(trace) <= trace
        invariant token in world.calls <==> token in old(world.calls)
        invariant token in world.calls ==> world.calls[token] == old(world).calls[token]
        invariant NoneDrops(trace, mark, image) && OnTrack(old(world), token, inputs, image, phase) ==>
                    OnTrack(world, token, inputs, image, phase)
      {
        var a: Action := *;
        if !ByCall(a, token) {
          ghost var was := trace;
          TakeOther(a, token, inputs, image, phase);
          if NoneDrops(trace, mark, image) {
            OneDrops(was, a, mark, image);
          }
        }
        n := n - 1;
      }
      if NoneDrops(trace, mark, image) {
        NoneDropsBefore(old(trace), trace, mark, image);
      }
    }

    /** The call's temporary files exist at most; nothing of it is published. */
    ghost predicate Pending(token: string, inputs: string)
      reads this
    {
      && Valid()
      && (token in world.calls ==>
            !world.calls[token].published && !world.calls[token].phase.Published? && world.calls[token].inputs == inputs)
    }

    /** A step of this call, short of the last rename. */
    method TakeOwn(token: string, a: Action, ghost inputs: string)
      requires Pending(token, inputs) && ByCall(a, token) && !a.PublishLookup? && (a.Begin? ==> a.inputs == inputs)
      modifies `world, `trace
      ensures Pending(token, inputs) && trace == old(trace) + [a] && world == Next(old(world), a)
    {
      OwnStepStaysPending(world, a, token, inputs);
      Take(a);
    }

    /** What a step that fails leaves behind. */
    method LeaveBehind(token: string, phase: Phase, ghost inputs: string)
      requires Pending(token, inputs)
      modifies `world, `trace
      ensures Pending(token, inputs) && old(trace) <= trace
    {
      if phase.Built? {
        var text: string := *;
        TakeOwn(token, BuildBreaks(token, text), inputs);
      } else if phase.Saved? {
        var empty: bool := *;
        TakeOwn(token, SaveBreaks(token, empty), inputs);
      }
    }

    /** A step of this call that does not fail. */
    method Advances(token: string, a: Action, prev: Phase, phase: Phase, ghost inputs: string, ghost image: string) returns (ok: bool)
      requires Pending(token, inputs) && Leads(a, token, image, prev, phase) && !phase.Published?
      modifies `world, `trace
      ensures Pending(token, inputs) && trace == old(trace) + [a]
      ensures ok ==> In(world, token, phase)
      ensures OnTrack(old(world), token, inputs, image, prev) && IsImageID(image) && start.inputsOf(image) == inputs ==>
                ok && OnTrack(world, token, inputs, image, phase)
    {
      RunKeepsInv(start, trace);
      RunKeepsInputs(start, trace);
      if OnTrack(world, token, inputs, image, prev) && IsImageID(image) && start.inputsOf(image) == inputs {
        Advance(world, a, token, inputs, image, prev, phase);
      }
      TakeOwn(token, a, inputs);
      ok := In(world, token, phase);
    }

    /** Other calls run on, then this call's next step fails or is taken. */
    method Perform(token: string, a: Action, prev: Phase, phase: Phase, ghost mark: nat, ghost failed: nat,
                   ghost inputs: string, ghost image: string)
      returns (ok: bool)
      requires Pending(token, inputs) && Leads(a, token, image, prev, phase) && !phase.Published? && mark <= |trace|
      requires Fine(mark, failed, inputs, image) ==> OnTrack(world, token, inputs, image, prev)
      requires failed <= failures
      modifies `world, `trace, `failures
      ensures Pending(token, inputs) && old(trace) <= trace && failed <= failures
      ensures ok ==> In(world, token, phase)
      ensures Fine(mark, failed, inputs, image) ==> ok && OnTrack(world, token, inputs, image, phase)
    {
      Others(token, mark, failed, inputs, image, prev);
      var fails := Fails();
      if fails {
        LeaveBehind(token, phase, inputs);
        return false;
      }
      ghost var was := trace;
      ok := Advances(token, a, prev, phase, inputs, image);
      if NoneDrops(trace, mark, image) {
        OneDrops(was, a, mark, image);
      }
    }

    /** The temporary archive is created. */
    method Prepare(token: string, inputs: string, ghost mark: nat, ghost failed: nat, ghost image: string) returns (ok: bool)
      requires Valid() && token !in world.calls && mark <= |trace| && failed <= failures
      modifies `world, `trace, `failures
      ensures Pending(token, inputs) && old(trace) <= trace && failed <= failures
      ensures ok ==> In(world, token, Prepared)
      ensures Fine(mark, failed, inputs, image) ==> ok && OnTrack(world, token, inputs, image, Prepared)
    {
      Others(token, mark, failed, inputs, image, Prepared);
      var fails := Fails();
      if fails {
        return false;
      }
      if HasPrefix(inputs, "v2-") {
        BeginsOnTrack(world, token, inputs, image);
      }
      TakeOwn(token, Begin(token, inputs), inputs);
      ok := In(world, token, Prepared);
    }

    /** The last rename. */
    method PublishStep(token: string, ghost mark: nat, ghost failed: nat, ghost inputs: string, ghost image: string) returns (ok: bool)
      requires Pending(token, inputs) && mark <= |trace| && failed <= failures
      requires Fine(mark, failed, inputs, image) ==> OnTrack(world, token, inputs, image, Installed)
      modifies `world, `trace, `failures
      ensures Valid() && old(trace) <= trace
      ensures ok ==> In(world, token, Published) && world.calls[token].inputs == inputs
      ensures !ok ==> Pending(token, inputs)
      ensures Fine(mark, failed, inputs, image) ==> ok && OnTrack(world, token, inputs, image, Published)
    {
      Others(token, mark, failed, inputs, image, Installed);
      var fails := Fails();
      if fails {
        return false;
      }
      RunKeepsInv(start, trace);
      RunKeepsInputs(start, trace);
      ghost var was := trace;
      if OnTrack(world, token, inputs, image, Installed) && IsImageID(image) && start.inputsOf(image) == inputs {
        Advance(world, PublishLookup(token), token, inputs, image, Installed, Published);
      }
      Take(PublishLookup(token));
      if NoneDrops(trace, mark, image) {
        OneDrops(was, PublishLookup(token), mark, image);
      }
      ok := In(world, token, Published);
    }

    /** Where Docker is reached and the inputs ID computed: the image is built and identified. */
    method MakeImage(token: string, inputs: string, image: string, ghost mark: nat, ghost failed: nat) returns (ok: bool)
      requires Valid() && token !in world.calls && mark <= |trace| && failed <= failures
      modifies `world, `trace, `failures
      ensures Pending(token, inputs) && old(trace) <= trace && failed <= failures
      ensures ok ==> In(world, token, Identified)
      ensures Fine(mark, failed, inputs, image) ==> ok && OnTrack(world, token, inputs, image, Identified)
    {
      ok := Prepare(token, inputs, mark, failed, image);
      if ok { ok := Perform(token, BuildImage(token, image), Prepared, Built, mark, failed, inputs, image); }
      if ok { ok := Perform(token, ReadIdentity(token), Built, Identified, mark, failed, inputs, image); }
    }

    /** ... then inspected, tagged and exported. */
    method SaveImage(token: string, inputs: string, ghost image: string, ghost mark: nat, ghost failed: nat) returns (ok: bool)
      requires Pending(token, inputs) && mark <= |trace| && failed <= failures
      requires Fine(mark, failed, inputs, image) ==> OnTrack(world, token, inputs, image, Identified)
      modifies `world, `trace, `failures
      ensures Pending(token, inputs) && old(trace) <= trace && failed <= failures
      ensures ok ==> In(world, token, Phase.Saved)
      ensures Fine(mark, failed, inputs, image) ==> ok && OnTrack(world, token, inputs, image, Phase.Saved)
    {
      ok := Perform(token, Inspect(token), Identified, Inspected, mark, failed, inputs, image);
      if ok { ok := Perform(token, TagImage(token), Inspected, Tagged, mark, failed, inputs, image); }
      if ok { ok := Perform(token, Save(token), Tagged, Phase.Saved, mark, failed, inputs, image); }
    }

    /** ... then checked, installed and published. */
    method InstallImage(token: string, inputs: string, ghost image: string, ghost mark: nat, ghost failed: nat) returns (ok: bool)
      requires Pending(token, inputs) && mark <= |trace| && failed <= failures
      requires Fine(mark, failed, inputs, image) ==> OnTrack(world, token, inputs, image, Phase.Saved)
      modifies `world, `trace, `failures
      ensures Valid() && old(trace) <= trace
      ensures ok ==> In(world, token, Published) && world.calls[token].inputs == inputs
      ensures !ok ==> Pending(token, inputs)
      ensures Fine(mark, failed, inputs, image) ==> ok && OnTrack(world, token, inputs, image, Published)
    {
      ok := Perform(token, CheckArchive(token), Phase.Saved, Checked, mark, failed, inputs, image);
      if ok { ok := Perform(token, InstallArchive(token), Checked, Installed, mark, failed, inputs, image); }
      if ok { ok := PublishStep(token, mark, failed, inputs, image); }
    }

    method Produce(token: string, inputs: string, image: string, ghost mark: nat, ghost failed: nat) returns (ok: bool)
      requires Valid() && token !in world.calls && mark <= |trace| && failed <= failures
      modifies `world, `trace, `failures
      ensures Valid() && old(trace) <= trace
      ensures ok ==> In(world, token, Published) && world.calls[token].inputs == inputs
      ensures !ok ==> Pending(token, inputs)
      ensures Fine(mark, failed, inputs, image) ==> ok && OnTrack(world, token, inputs, image, Published)
    {
      ok := MakeImage(token, inputs, image, mark, failed);
      if ok { ok := SaveImage(token, inputs, image, mark, failed); }
      if ok { ok := InstallImage(token, inputs, image, mark, failed); }
    }

    /**
     * One call of `Build` among any others, with the image Docker builds for it.  It
     * reports an image exactly when it renamed a lookup into place: the lookup of its own
     * inputs, naming the image it reports, which carries these inputs and whose archive
     * is installed.  Failing or stopped, it had no share in any lookup; and it does not
     * fail without a step that fails, a wrong image, or Docker's losing the image.
     */
    method Build(token: string, inputs: string, image: string) returns (result: Option<string>)
      requires Valid() && token !in world.calls
      modifies this
      ensures Valid() && old(trace) <= trace
      ensures result.Some? <==> PublishedBy(Publications(start, trace), token)
      ensures result.Some? ==>
                && IsImageID(result.value) && Holds(world.files, result.value) && start.inputsOf(result.value) == inputs
                && Publication(token, inputs, result.value) in Publications(start, trace)
      ensures Fine(|old(trace)|, old(failures), inputs, image) ==> result == Some(image)
    {
      ghost var mark, failed := |trace|, failures;
      CallsAreRemembered(start, trace);
      var ok := Produce(token, inputs, image, mark, failed);
      ghost var was := trace;
      result := None;
      if ok {
        PublishedMeansInstalled(start, trace, token);
        RunKeepsInputs(start, trace);
        result := Some(world.calls[token].id);
      }
      if token in world.calls {
        Leave(token);
      }
      if NoneDrops(trace, mark, image) {
        NoneDropsBefore(was, trace, mark, image);
      }
      OnlyPublishersPublish(start, trace, token);
    }
  }
}
