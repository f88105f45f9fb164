// Which node may feed which: the type table and the creative-role table.

module Contract {
  import opened Collections
  import opened Graph
  import opened Canvas

  // NODE_FEED_RULES
  predicate CanFeed(source: NodeType, target: NodeType) {
    match source
    case Text => target.Text? || target.Image? || target.Video? || target.Audio?
    case Image => target.Image? || target.Video?
    case Video => target.Video? || target.Compose?
    case Audio => target.Audio? || target.Video?
    case Compose => target.Video? || target.Compose?
    case Director => target.Image? || target.Video?
    case OtherType(_) => false
  }

  // ALLOWED_INPUTS; None for a role outside the table.
  function AllowedInputs(role: Creative): Option<set<Creative>> {
    match role
    case Script => Some({})
    case Character => Some({Script})
    case Shot => Some({Script, Character})
    case Keyframe => Some({Shot, Character, Script})
    case Clip => Some({Keyframe, Shot, Character})
    case Voice => Some({Shot, Script})
    case Composite => Some({Clip, Voice})
    case _ => None
  }

  // The role validate_connect reads off a node: its own, else one named after its type.
  function ConnectRole(n: Node): Creative {
    if !n.creative.NoCreative? then n.creative
    else match n.ntype
      case Text => Script
      case Audio => Voice
      case Image => OtherCreative("image")
      case Video => OtherCreative("video")
      case Compose => OtherCreative("compose")
      case Director => OtherCreative("director")
      case OtherType(name) => if name == "" then NoCreative else OtherCreative(name)
  }

  datatype Complaint = TypeCannotFeed | RoleNotAllowed | ScriptCannotRender | ShotNeedsKeyframe | NoLegalUpstream

  // validate_connect; a node that is not on the canvas is not judged.
  function ValidateConnect(nm: map<int, Node>, s: int, t: int, dep: Dependency): Option<Complaint> {
    if !dep.Input? || s !in nm || t !in nm then None
    else
      var src, tgt := nm[s], nm[t];
      if src.ntype != OtherType("") && tgt.ntype != OtherType("") && !CanFeed(src.ntype, tgt.ntype) then
        Some(TypeCannotFeed)
      else
        var sr, tr := ConnectRole(src), ConnectRole(tgt);
        if sr.NoCreative? || tr.NoCreative? then None
        else match AllowedInputs(tr)
          case None => None
          case Some(allowed) => if sr !in allowed && sr != tr then Some(RoleNotAllowed) else None
  }

  // ---------- What is refused ----------

  // The pairs of types that may be joined, and of roles.
  const FEEDS := {
    (Text, Text), (Text, Image), (Text, Video), (Text, Audio),
    (Image, Image), (Image, Video),
    (Video, Video), (Video, Compose),
    (Audio, Audio), (Audio, Video),
    (Compose, Video), (Compose, Compose),
    (Director, Image), (Director, Video)}

  const INPUTS := {
    (Script, Character),
    (Script, Shot), (Character, Shot),
    (Script, Keyframe), (Character, Keyframe), (Shot, Keyframe),
    (Keyframe, Clip), (Shot, Clip), (Character, Clip),
    (Shot, Voice), (Script, Voice),
    (Clip, Composite), (Voice, Composite)}

  const ROLES := {Script, Character, Shot, Keyframe, Clip, Voice, Composite}

  // A node has the role it carries; without one a text is a script, and an audio a voice.
  ghost predicate Plays(n: Node, role: Creative) {
    || n.creative == role
    || (n.creative.NoCreative? && ((n.ntype.Text? && role.Script?) || (n.ntype.Audio? && role.Voice?)))
  }

  // Between two nodes of the canvas an input edge is refused exactly when their types may not be joined, or
  // the target has a role that does not take what the source is, unless that is the same role; a source that
  // has neither a role nor a type is let through.
  lemma ConnectionRefusedIff(nm: map<int, Node>, s: int, t: int, dep: Dependency)
    requires s in nm && t in nm
    ensures ValidateConnect(nm, s, t, dep) == Some(TypeCannotFeed) <==>
      dep.Input? && nm[s].ntype != OtherType("") && nm[t].ntype != OtherType("")
      && (nm[s].ntype, nm[t].ntype) !in FEEDS
    ensures ValidateConnect(nm, s, t, dep) == Some(RoleNotAllowed) <==>
      dep.Input? && ValidateConnect(nm, s, t, dep) != Some(TypeCannotFeed)
      && !(nm[s].creative.NoCreative? && nm[s].ntype == OtherType(""))
      && exists role :: role in ROLES && Plays(nm[t], role) && !Plays(nm[s], role)
           && forall input :: (input, role) in INPUTS ==> !Plays(nm[s], input)
    ensures ValidateConnect(nm, s, t, dep) in {None, Some(TypeCannotFeed), Some(RoleNotAllowed)}
  {
    var src, tgt := nm[s], nm[t];
    var sr, tr := ConnectRole(src), ConnectRole(tgt);
    forall role | role in ROLES ensures (Plays(src, role) <==> sr == role) && (Plays(tgt, role) <==> tr == role) {
    }
    if tr in ROLES { AllowedAre(tr, sr); }
  }

  lemma AllowedAre(role: Creative, input: Creative)
    ensures AllowedInputs(role).Some? <==> role in ROLES
    ensures role in ROLES ==> (input in AllowedInputs(role).value <==> (input, role) in INPUTS)
  {
  }

  // The role a source counts as for a generation: its own, else what its type stands for.
  function UpstreamRole(n: Node): Option<Creative> {
    if !n.creative.NoCreative? then Some(n.creative)
    else match n.ntype
      case Text => Some(Script)
      case Image => Some(Keyframe)
      case Video => Some(Clip)
      case _ => None
  }

  // The same, written out.
  ghost predicate CountsAs(n: Node, role: Creative) {
    if !n.creative.NoCreative? then n.creative == role
    else (n.ntype.Text? && role.Script?) || (n.ntype.Image? && role.Keyframe?) || (n.ntype.Video? && role.Clip?)
  }

  ghost predicate HasUpstreamRole(nm: map<int, Node>, edges: seq<Edge>, t: int, role: Creative) {
    exists e :: e in edges && e.dep.Input? && e.target == t && e.source in nm
      && UpstreamRole(nm[e.source]) == Some(role)
  }

  // _upstream_creative_types
  method UpstreamRoles(nm: map<int, Node>, edges: seq<Edge>, t: int) returns (roles: set<Creative>)
    ensures forall r :: r in roles <==> HasUpstreamRole(nm, edges, t, r)
    ensures forall r :: r in roles <==>
      exists e :: e in edges && e.dep.Input? && e.target == t && e.source in nm && CountsAs(nm[e.source], r)
  {
    roles := {};
    for k := 0 to |edges|
      invariant forall r :: r in roles <==> HasUpstreamRole(nm, edges[..k], t, r)
    {
      var e := edges[k];
      assert edges[..k + 1] == edges[..k] + [e];
      ghost var before := roles;
      if e.dep.Input? && e.target == t && e.source in nm {
        match UpstreamRole(nm[e.source])
        case Some(role) => roles := roles + {role};
        case None =>
      }
      forall r ensures r in roles <==> HasUpstreamRole(nm, edges[..k + 1], t, r) {
        if HasUpstreamRole(nm, edges[..k], t, r) {
          var e' :| e' in edges[..k] && e'.dep.Input? && e'.target == t && e'.source in nm
            && UpstreamRole(nm[e'.source]) == Some(r);
          assert e' in edges[..k + 1];
        }
      }
    }
    assert edges[..|edges|] == edges;
  }

  // validate_generation, given the roles upstream of the node; a node that is not on the canvas counts
  // as one of the requested model's type without a role.
  function ValidateGeneration(nm: map<int, Node>, i: int, model: NodeType, upstream: set<Creative>): Option<Complaint> {
    var role := if i in nm then nm[i].creative else NoCreative;
    var ntype := if i in nm && nm[i].ntype != OtherType("") then nm[i].ntype else model;
    if role.Script? && (model.Video? || model.Image?) then Some(ScriptCannotRender)
    else if role.Shot? && model.Video? && Keyframe !in upstream && Character !in upstream then Some(ShotNeedsKeyframe)
    else if (ntype.Video? || model.Video?) && upstream != {} && Keyframe !in upstream && Shot !in upstream
      && Clip !in upstream then Some(NoLegalUpstream)
    else match AllowedInputs(role)
      case None => None
      case Some(allowed) =>
        if allowed != {} && upstream != {} && !(upstream <= allowed + {role}) then Some(RoleNotAllowed) else None
  }

  // A generation is refused: a script for a picture or a film; a shot for a film with neither a first frame
  // nor a character above it; a film, by the node or the model asked for, with something above it but no
  // first frame, shot or clip; or a role with something above it that it does not take and that is not itself.
  lemma GenerationRefusedIff(nm: map<int, Node>, i: int, model: NodeType, upstream: set<Creative>)
    requires i in nm
    ensures var role, film := nm[i].creative, nm[i].ntype.Video? || model.Video?;
      var forScript := role.Script? && (model.Video? || model.Image?);
      var forShot := role.Shot? && model.Video? && upstream !! {Keyframe, Character};
      var forFilm := !forScript && !forShot && film && upstream != {} && upstream !! {Keyframe, Shot, Clip};
      && (ValidateGeneration(nm, i, model, upstream) == Some(ScriptCannotRender) <==> forScript)
      && (ValidateGeneration(nm, i, model, upstream) == Some(ShotNeedsKeyframe) <==> forShot)
      && (ValidateGeneration(nm, i, model, upstream) == Some(NoLegalUpstream) <==> forFilm)
      && (ValidateGeneration(nm, i, model, upstream) == Some(RoleNotAllowed) <==>
           !forScript && !forShot && !forFilm && role in ROLES && !role.Script?
           && exists input :: input in upstream && input != role && (input, role) !in INPUTS)
      && ValidateGeneration(nm, i, model, upstream) != Some(TypeCannotFeed)
  {
    var role := nm[i].creative;
    forall input ensures role in ROLES ==> (input in AllowedInputs(role).value <==> (input, role) in INPUTS) {
      AllowedAre(role, input);
    }
    AllowedAre(role, role);
  }
}
