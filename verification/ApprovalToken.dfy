// Approvals: the signed token, what it is bound to, and the checks a confirmation must pass.

module ApprovalToken {
  import opened Collections

  // ---------- Token text ----------

  function StripLeft(s: string, space: char -> bool): string {
    if s != "" && space(s[0]) then StripLeft(s[1..], space) else s
  }

  function StripRight(s: string, space: char -> bool): string {
    if s != "" && space(s[|s| - 1]) then StripRight(s[..|s| - 1], space) else s
  }

  // The position of the first dot, or the length.
  function FirstDot(s: string): (k: nat)
    ensures k <= |s| && '.' !in s[..k] && (k < |s| ==> s[k] == '.')
  {
    if s == "" || s[0] == '.' then 0 else 1 + FirstDot(s[1..])
  }

  function BuildToken(nonce: string, signature: string): string { nonce + "." + signature }

  function SplitToken(token: string, space: char -> bool): Option<(string, string)> {
    var raw := StripRight(StripLeft(token, space), space);
    var k := FirstDot(raw);
    if k == |raw| || k == 0 || k + 1 == |raw| then None else Some((raw[..k], raw[k + 1..]))
  }

  predicate Trimmed(s: string, space: char -> bool) {
    s != "" ==> !space(s[0]) && !space(s[|s| - 1])
  }

  lemma {:induction false} StripLeftSuffix(s: string, space: char -> bool)
    ensures |StripLeft(s, space)| <= |s| && StripLeft(s, space) == s[|s| - |StripLeft(s, space)|..]
    ensures |StripLeft(s, space)| < |s| ==> space(s[0])
    ensures StripLeft(s, space) != "" ==> !space(StripLeft(s, space)[0])
  {
    if s != "" && space(s[0]) { StripLeftSuffix(s[1..], space); }
  }

  lemma {:induction false} StripRightPrefix(s: string, space: char -> bool)
    ensures StripRight(s, space) <= s
    ensures |StripRight(s, space)| < |s| ==> space(s[|s| - 1])
    ensures StripRight(s, space) != "" ==> !space(StripRight(s, space)[|StripRight(s, space)| - 1])
  {
    if s != "" && space(s[|s| - 1]) { StripRightPrefix(s[..|s| - 1], space); }
  }

  lemma StripKeeps(s: string, space: char -> bool)
    ensures StripRight(StripLeft(s, space), space) == s <==> Trimmed(s, space)
  {
    StripLeftSuffix(s, space);
    StripRightPrefix(StripLeft(s, space), space);
  }

  lemma {:induction false} FirstDotAtMost(s: string, k: nat)
    requires k < |s| && s[k] == '.'
    ensures FirstDot(s) <= k
  {
    if s[0] != '.' { FirstDotAtMost(s[1..], k - 1); }
  }

  lemma DotIsFirst(nonce: string, signature: string)
    ensures FirstDot(BuildToken(nonce, signature)) == |nonce| <==> '.' !in nonce
  {
    var token := BuildToken(nonce, signature);
    var k := FirstDot(token);
    assert token[..|nonce|] == nonce && token[|nonce|] == '.';
    if k < |nonce| { assert token[k] == nonce[k] && nonce[k] in nonce; }
    FirstDotAtMost(token, |nonce|);
    if k == |nonce| { assert token[..k] == nonce; }
  }

  // Splitting undoes building exactly for a nonempty nonce without dots, a nonempty signature,
  // and no space at either end.
  lemma TokenRoundTrip(nonce: string, signature: string, space: char -> bool)
    requires !space('.')
    ensures SplitToken(BuildToken(nonce, signature), space) == Some((nonce, signature))
      <==> nonce != "" && '.' !in nonce && signature != "" && Trimmed(BuildToken(nonce, signature), space)
  {
    var token := BuildToken(nonce, signature);
    var raw := StripRight(StripLeft(token, space), space);
    StripKeeps(token, space);
    DotIsFirst(nonce, signature);
    StripLeftSuffix(token, space);
    StripRightPrefix(StripLeft(token, space), space);
    var split := SplitToken(token, space);
    if split == Some((nonce, signature)) {
      var k := FirstDot(raw);
      assert raw == raw[..k] + "." + raw[k + 1..];
      assert raw == token;
    }
    assert token[..|nonce|] == nonce && token[|nonce| + 1..] == signature;
  }

  // Around the text that is split there are only spaces.
  ghost predicate SpacesAround(raw: string, token: string, space: char -> bool) {
    exists k: nat :: SpacesBut(raw, token, k, space)
  }

  ghost predicate SpacesBut(raw: string, token: string, k: nat, space: char -> bool) {
    && k + |raw| <= |token| && token[k..k + |raw|] == raw
    && forall j :: 0 <= j < k || k + |raw| <= j < |token| ==> space(token[j])
  }

  lemma {:induction false} StrippedLeft(s: string, space: char -> bool) returns (k: nat)
    ensures k <= |s| && StripLeft(s, space) == s[k..] && forall j :: 0 <= j < k ==> space(s[j])
  {
    k := 0;
    if s != "" && space(s[0]) {
      k := StrippedLeft(s[1..], space);
      assert forall j :: 0 < j <= k ==> s[j] == s[1..][j - 1];
      k := k + 1;
    }
  }

  lemma {:induction false} StrippedRight(s: string, space: char -> bool) returns (k: nat)
    ensures k <= |s| && StripRight(s, space) == s[..k] && forall j :: k <= j < |s| ==> space(s[j])
  {
    k := |s|;
    if s != "" && space(s[|s| - 1]) { k := StrippedRight(s[..|s| - 1], space); }
  }

  // What splitting finds: the token without the spaces around it, cut at its first dot, both parts nonempty.
  lemma SplitMeans(token: string, space: char -> bool, nonce: string, signature: string)
    ensures SplitToken(token, space) == Some((nonce, signature)) ==>
      && nonce != "" && '.' !in nonce && signature != ""
      && SpacesAround(nonce + "." + signature, token, space) && Trimmed(nonce + "." + signature, space)
    ensures SplitToken(token, space).None? ==> exists raw ::
      SpacesAround(raw, token, space) && ('.' !in raw || raw[0] == '.' || '.' !in raw[..|raw| - 1])
  {
    var left := StrippedLeft(token, space);
    var right := StrippedRight(token[left..], space);
    var raw := token[left..][..right];
    assert raw == token[left..left + right];
    forall j | left + right <= j < |token| ensures space(token[j]) { assert token[j] == token[left..][j - left]; }
    assert SpacesBut(raw, token, left, space);
    StripLeftSuffix(token, space);
    StripRightPrefix(StripLeft(token, space), space);
    assert Trimmed(raw, space);
    var k := FirstDot(raw);
    if k < |raw| { assert raw == raw[..k] + "." + raw[k + 1..]; } else { assert raw[..k] == raw; }
  }

  // ---------- What a token is bound to ----------

  // Parameter values are of no concern here; two are equal or not.
  type Params = map<string, string>

  const TRANSIENT := {"approval_token", "approvalToken", "confirm_token", "confirmToken"}

  function Normalize(params: Params): Params { params - TRANSIENT }

  // Equal up to the fields that come and go while a confirmation is under way.
  ghost predicate SameParams(a: Params, b: Params) {
    forall k :: k !in TRANSIENT ==> (k in a <==> k in b) && (k in a ==> a[k] == b[k])
  }

  lemma NormalizeForgetsTransient(a: Params, b: Params)
    ensures Normalize(a) == Normalize(b) <==> SameParams(a, b)
  {
    if Normalize(a) == Normalize(b) {
      forall k | k !in TRANSIENT ensures (k in a <==> k in b) && (k in a ==> a[k] == b[k]) {
        assert k in Normalize(a) <==> k in Normalize(b);
        if k in a { assert Normalize(a)[k] == a[k] && Normalize(b)[k] == b[k]; }
      }
    }
  }

  type ActionHash = (string, Params, int) -> string

  datatype Payload = Payload(
    actionId: int, userId: int, canvasId: Option<int>, canvasVersion: int, planVersion: int,
    actionHash: string, estimatedCost: int, chainEstimatedCost: int, expiresAt: int, nonce: string)

  type Signer = (string, Payload) -> string

  datatype Status = Pending | Consumed | Rejected | Expired

  datatype Approval = Approval(
    actionId: int, sessionId: int, userId: int, canvasId: Option<int>, canvasVersion: int, planVersion: int,
    actionHash: string, costCap: int, nonce: string, signature: string, expiresAt: int,
    consumedAt: Option<int>, status: Status)

  // The action record a confirmation is for.
  datatype Action = Action(
    id: int, sessionId: int, userId: int, toolName: string, params: Params,
    planVersion: int, costCap: int, token: string)

  function OrOne(n: int): int { if n == 0 then 1 else n }

  // What an approval is issued for.
  datatype Issuance = Issuance(
    action: Action, canvasId: Option<int>, canvasVersion: int, planVersion: int, toolName: string, params: Params,
    estimatedCost: int, chainCost: int, ttl: int, now: int, nonce: string, secret: string)

  function ExpiryOf(i: Issuance): int { i.now + if i.ttl == 0 then 300 else if i.ttl < 30 then 30 else i.ttl }

  function SignatureOf(i: Issuance, hash: ActionHash, sign: Signer): string {
    var actionHash := hash(i.toolName, Normalize(i.params), i.estimatedCost + i.chainCost);
    sign(i.secret, Payload(i.action.id, i.action.userId, i.canvasId, i.canvasVersion, OrOne(i.planVersion), actionHash,
      i.estimatedCost, i.chainCost, ExpiryOf(i), i.nonce))
  }

  // Issuing an approval binds it to the action as it is, and hands the token to the action.
  function Issue(i: Issuance, hash: ActionHash, sign: Signer): (Approval, Action)
  {
    var cap := i.estimatedCost + i.chainCost;
    var signature := SignatureOf(i, hash, sign);
    (Approval(i.action.id, i.action.sessionId, i.action.userId, i.canvasId, i.canvasVersion, OrOne(i.planVersion),
       hash(i.toolName, Normalize(i.params), cap), cap, i.nonce, signature, ExpiryOf(i), None, Pending),
     i.action.(planVersion := OrOne(i.planVersion), costCap := cap, token := BuildToken(i.nonce, signature)))
  }

  // The parameters without the four fields that come and go.
  ghost predicate Stripped(r: Params, params: Params) {
    forall k :: (k in r <==> k in params && k != "approval_token" && k != "approvalToken" && k != "confirm_token"
                             && k != "confirmToken")
      && (k in r ==> r[k] == params[k])
  }

  // What the row records: the owner and the action, the canvas and its version, the plan's version or 1, the
  // hash of the tool, the stripped parameters and the whole cost, that cost as the cap, the nonce and the
  // signature of all this, and an expiry at least half a minute off; the action gets the token.
  lemma IssuedTerms(i: Issuance, hash: ActionHash, sign: Signer, stripped: Params)
    requires Stripped(stripped, i.params)
    ensures var (row, action) := Issue(i, hash, sign);
      var (cap, plan) := (i.estimatedCost + i.chainCost, if i.planVersion == 0 then 1 else i.planVersion);
      && row.actionId == i.action.id && row.sessionId == i.action.sessionId && row.userId == i.action.userId
      && row.canvasId == i.canvasId && row.canvasVersion == i.canvasVersion && row.planVersion == plan
      && row.actionHash == hash(i.toolName, stripped, cap) && row.costCap == cap && row.nonce == i.nonce
      && row.signature == sign(i.secret, Payload(i.action.id, i.action.userId, i.canvasId, i.canvasVersion, plan,
           row.actionHash, i.estimatedCost, i.chainCost, row.expiresAt, i.nonce))
      && row.expiresAt == i.now + (if i.ttl == 0 then 300 else if i.ttl < 30 then 30 else i.ttl)
      && row.consumedAt.None? && row.status.Pending?
      && action == i.action.(planVersion := plan, costCap := cap, token := i.nonce + "." + row.signature)
  {
    assert stripped == Normalize(i.params);
  }

  // ---------- Checks ----------

  datatype Request = Request(
    token: string, userId: int, sessionId: int, actionId: int, canvasId: Option<int>,
    canvasVersion: Option<int>, planVersion: Option<int>, actionHash: string, accept: bool)

  datatype Code = InvalidInput | ConfirmationRequired | PermissionDenied | ConfirmExpired | VersionConflict

  predicate CanvasDiffers(row: Approval, q: Request) {
    q.canvasId.Some? && row.canvasId.Or(0) != 0 && row.canvasId != q.canvasId
  }

  predicate Used(row: Approval) {
    row.consumedAt.Some? || row.status.Consumed? || row.status.Rejected?
  }

  // The first check a found row fails, in the order they are made.
  function Refusal(row: Approval, signature: string, q: Request, now: int): Option<Code> {
    if row.sessionId != q.sessionId || row.userId != q.userId then Some(PermissionDenied)
    else if CanvasDiffers(row, q) then Some(PermissionDenied)
    else if row.signature != signature then Some(InvalidInput)
    else if row.expiresAt <= now then Some(ConfirmExpired)
    else if q.canvasVersion.Some? && row.canvasVersion != q.canvasVersion.value then Some(VersionConflict)
    else if q.planVersion.Some? && OrOne(row.planVersion) != q.planVersion.value then Some(VersionConflict)
    else if q.actionHash != "" && q.actionHash != row.actionHash then Some(VersionConflict)
    else if Used(row) then Some(InvalidInput)
    else None
  }

  // The request is made by the approval's user, in its session, on its canvas, with its
  // signature, before it expires, and for the action, versions and parameters it was issued for.
  predicate Bound(row: Approval, signature: string, q: Request, now: int) {
    && row.sessionId == q.sessionId && row.userId == q.userId
    && (q.canvasId.Some? && row.canvasId.Some? && row.canvasId.value != 0 ==> row.canvasId == q.canvasId)
    && row.signature == signature
    && now < row.expiresAt
    && (q.canvasVersion.Some? ==> q.canvasVersion.value == row.canvasVersion)
    && (q.planVersion.Some? ==> q.planVersion.value == if row.planVersion == 0 then 1 else row.planVersion)
    && (q.actionHash != "" ==> q.actionHash == row.actionHash)
  }

  lemma PassesIffBoundAndUnused(row: Approval, signature: string, q: Request, now: int)
    ensures Refusal(row, signature, q, now) == None <==>
      Bound(row, signature, q, now) && row.consumedAt.None? && row.status !in {Consumed, Rejected}
  {
  }

  // Asked by another user, in another session, or on another canvas.
  predicate Foreign(row: Approval, q: Request) {
    || row.sessionId != q.sessionId || row.userId != q.userId
    || (q.canvasId.Some? && row.canvasId.Some? && row.canvasId.value != 0 && row.canvasId.value != q.canvasId.value)
  }

  // Asked for another version of the canvas or the plan, or for other parameters.
  predicate Outdated(row: Approval, q: Request) {
    || (q.canvasVersion.Some? && q.canvasVersion.value != row.canvasVersion)
    || (q.planVersion.Some? && row.planVersion != 0 && q.planVersion.value != row.planVersion)
    || (q.planVersion.Some? && row.planVersion == 0 && q.planVersion.value != 1)
    || (q.actionHash != "" && q.actionHash != row.actionHash)
  }

  // Which refusal a request meets: whoever may not ask learns nothing else, a forged token not even whether
  // the approval has expired, and a used one only that it is used.
  lemma RefusedWith(row: Approval, signature: string, q: Request, now: int)
    ensures var refusal := Refusal(row, signature, q, now);
      && (refusal == Some(PermissionDenied) <==> Foreign(row, q))
      && (refusal == Some(ConfirmExpired) <==> !Foreign(row, q) && row.signature == signature && row.expiresAt <= now)
      && (refusal == Some(VersionConflict) <==>
           !Foreign(row, q) && row.signature == signature && now < row.expiresAt && Outdated(row, q))
      && (refusal == Some(InvalidInput) <==>
           !Foreign(row, q)
           && (row.signature != signature
               || (now < row.expiresAt && !Outdated(row, q)
                   && (row.consumedAt.Some? || row.status in {Consumed, Rejected}))))
      && refusal != Some(ConfirmationRequired)
  {
  }

  // How the application asks: the hash of the action as recorded now; a canvas version of zero
  // is passed on as none, and so not compared.
  function Confirm(action: Action, canvasId: Option<int>, currentVersion: int, accept: bool,
      hash: ActionHash): Request {
    Request(action.token, action.userId, action.sessionId, action.id, canvasId,
      if currentVersion == 0 then None else Some(currentVersion), Some(OrOne(action.planVersion)),
      hash(action.toolName, Normalize(action.params), action.costCap), accept)
  }

  // Since the approval was issued for its own action, the row was at most used, and the action record kept
  // its tool, its parameters up to the transient fields, its cap, its version and its token.
  ghost predicate KeptSince(i: Issuance, row: Approval, recorded: Action, hash: ActionHash, sign: Signer) {
    var (approval, marked) := Issue(i, hash, sign);
    && i.toolName == i.action.toolName && i.params == i.action.params
    && row.(consumedAt := None, status := Pending) == approval
    && recorded.(params := i.params) == marked && SameParams(recorded.params, i.params)
  }

  // Such an approval passes the checks exactly until it is used, expires, or the canvas moves to another
  // version than zero.
  lemma IssuedPasses(i: Issuance, row: Approval, recorded: Action, hash: ActionHash, sign: Signer, currentVersion: int,
                     accept: bool, now: int)
    requires KeptSince(i, row, recorded, hash, sign)
    ensures Refusal(row, row.signature, Confirm(recorded, i.canvasId, currentVersion, accept, hash), now) == None
      <==>
        && row.consumedAt.None? && row.status !in {Consumed, Rejected} && currentVersion in {0, i.canvasVersion}
        && now < i.now + (if i.ttl == 0 then 300 else if i.ttl < 30 then 30 else i.ttl)
  {
    NormalizeForgetsTransient(recorded.params, i.params);
    var q := Confirm(recorded, i.canvasId, currentVersion, accept, hash);
    PassesIffBoundAndUnused(row, row.signature, q, now);
  }
}
