/**
 * The two computations of the authentication service that hold logic: the
 * dashboard's admin test on a guild's permission bitfield, and the Discord
 * token's expiry instant.
 */
module Auth {

  function Pow2(k: nat): (p: nat)
    ensures p >= 1
  {
    if k == 0 then 1 else 2 * Pow2(k - 1)
  }

  /** Bit `k` of `p`. */
  predicate HasFlag(p: nat, k: nat) {
    if k == 0 then p % 2 == 1 else HasFlag(p / 2, k - 1)
  }

  /** The bitwise and of two non-negative integers, as on BigInt values. */
  function BitAnd(a: nat, b: nat): (r: nat)
    ensures r <= a && r <= b
    decreases a
  {
    if a == 0 || b == 0 then 0
    else 2 * BitAnd(a / 2, b / 2) + (if a % 2 == 1 && b % 2 == 1 then 1 else 0)
  }

  /** Masking with a single bit yields that bit exactly when it is set. */
  lemma {:induction false} AndSingleBit(p: nat, k: nat)
    ensures BitAnd(p, Pow2(k)) == Pow2(k) <==> HasFlag(p, k)
    decreases k
  {
    if k == 0 {
      assert p != 0 ==> BitAnd(p / 2, 0) == 0;
    } else {
      AndSingleBit(p / 2, k - 1);
      assert Pow2(k) / 2 == Pow2(k - 1) && Pow2(k) % 2 == 0;
    }
  }

  /** Bit positions of the two permissions that grant dashboard access. */
  const AdministratorBit: nat := 3   // 0x8
  const ManageGuildBit: nat := 5     // 0x20

  /**
   * A user may manage a guild from the dashboard if they hold
   * ADMINISTRATOR or MANAGE_GUILD there, or own it.
   */
  function HasAdminPermissions(permissions: nat, owner: bool): (granted: bool)
    ensures granted <==> HasFlag(permissions, AdministratorBit) || HasFlag(permissions, ManageGuildBit) || owner
  {
    AndSingleBit(permissions, AdministratorBit);
    AndSingleBit(permissions, ManageGuildBit);
    assert Pow2(AdministratorBit) == 0x8 && Pow2(ManageGuildBit) == 0x20;
    BitAnd(permissions, 0x8) == 0x8 || BitAnd(permissions, 0x20) == 0x20 || owner
  }

  /**
   * Permission bitfields as Discord sends them: ADMINISTRATOR alone,
   * MANAGE_GUILD alone, and both among other bits grant access; a field with
   * neither (here SEND_MESSAGES, BAN_MEMBERS and KICK_MEMBERS) does not,
   * unless the user owns the guild.
   */
  lemma PermissionExamples()
    ensures HasAdminPermissions(0x8, false)
    ensures HasAdminPermissions(0x20, false)
    ensures HasAdminPermissions(0x800 + 0x20 + 0x8 + 0x4, false)
    ensures !HasAdminPermissions(0x800 + 0x4 + 0x2, false)
    ensures HasAdminPermissions(0x800 + 0x4 + 0x2, true)
    ensures HasAdminPermissions(0, true) && !HasAdminPermissions(0, false)
  {
  }

  /** The stored Discord token expiry: `expires_in` seconds after login. */
  function TokenExpiry(now: int, expiresIn: int): (expiry: int)
    ensures expiresIn >= 0 ==> expiry >= now
    ensures expiresIn > 0 ==> expiry >= now + 1000
    ensures (expiry - now) % 1000 == 0
    ensures (expiry - now) / 1000 == expiresIn
  {
    now + expiresIn * 1000
  }
}
