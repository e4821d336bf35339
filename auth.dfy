/**
 * Peer admission policies (dmrtools/auth.py): which peer ids may log in, and
 * whether the hash a peer sends proves it knows the configured password.
 * SHA-256 is a parameter `sha` of the functions that hash.
 */
module Auth {
  import opened Wrappers
  import opened Fields

  /** The three policies: AllowAllPeerAuth, DenyAllPeerAuth, ListPeerAuth(allowed_peers). */
  datatype PeerAuth =
    | AllowAll
    | DenyAll
    | ListAuth(allowed: map<int, string>)

  /** ListPeerAuth(allowed_peers): no table means an empty one, which admits nobody. */
  function NewListAuth(allowed: Option<map<int, string>>): (a: PeerAuth)
    ensures a.ListAuth?
    ensures allowed.Some? ==> a.allowed == allowed.value
    ensures allowed.None? ==> forall id :: !AllowPeerId(a, id)
  {
    ListAuth(if allowed.Some? then allowed.value else map[])
  }

  /** calc_password_hash: SHA-256 over the salt followed by the UTF-8 password. */
  function CalcPasswordHash(salt: seq<byte>, password: string, sha: seq<byte> -> seq<byte>): seq<byte> {
    sha(salt + Utf8(password))
  }

  /** allow_peer_id */
  predicate AllowPeerId(a: PeerAuth, id: int)
    ensures a.AllowAll? ==> AllowPeerId(a, id)
    ensures a.DenyAll? ==> !AllowPeerId(a, id)
    ensures a.ListAuth? ==> (AllowPeerId(a, id) <==> id in a.allowed)
  {
    match a
    case AllowAll => true
    case DenyAll => false
    case ListAuth(allowed) => id in allowed
  }

  /** check_password */
  function CheckPassword(a: PeerAuth, id: int, salt: seq<byte>, passHash: seq<byte>,
                         sha: seq<byte> -> seq<byte>): (r: bool)
    ensures a.AllowAll? ==> r
    ensures a.DenyAll? ==> !r
    ensures a.ListAuth? && id !in a.allowed ==> !r
    ensures a.ListAuth? && id in a.allowed && a.allowed[id] == "" ==> r
    ensures a.ListAuth? && id in a.allowed && a.allowed[id] != "" ==>
      (r <==> passHash == CalcPasswordHash(salt, a.allowed[id], sha))
  {
    match a
    case AllowAll => true
    case DenyAll => false
    case ListAuth(allowed) =>
      if id !in allowed then false
      else if allowed[id] == "" then true
      else passHash == CalcPasswordHash(salt, allowed[id], sha)
  }

  /** Under every policy, a peer whose password check passes is also admitted by id. */
  lemma CheckImpliesAllow(a: PeerAuth, id: int, salt: seq<byte>, passHash: seq<byte>,
                          sha: seq<byte> -> seq<byte>)
    requires CheckPassword(a, id, salt, passHash, sha)
    ensures AllowPeerId(a, id)
  {
  }

  /**
   * With an injective hash, the list policy accepts exactly one hash for a listed
   * peer with a non-empty password: the one computed from that password, since
   * UTF-8 encodes different passwords differently.
   */
  lemma OnlyTheRightHashPasses(allowed: map<int, string>, id: int, salt: seq<byte>,
                               pw: string, sha: seq<byte> -> seq<byte>)
    requires id in allowed && allowed[id] != ""
    requires forall x, y :: sha(x) == sha(y) ==> x == y
    requires CheckPassword(ListAuth(allowed), id, salt, CalcPasswordHash(salt, pw, sha), sha)
    ensures pw == allowed[id]
  {
    var x, y := salt + Utf8(pw), salt + Utf8(allowed[id]);
    assert sha(x) == sha(y);
    assert x == y;
    assert Utf8(pw) == x[|salt|..] == y[|salt|..] == Utf8(allowed[id]);
    Utf8Injective(pw, allowed[id]);
  }
}
