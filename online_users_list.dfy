/** The presence panel: a count of the users online and, for each, an
    avatar whose colour is picked from a fixed palette by a string hash. */
module OnlineUsersList {
  import opened Types
  import opened Js

  const Palette: seq<string> :=
    ["#007bff", "#28a745", "#dc3545", "#ffc107", "#17a2b8", "#6f42c1", "#e83e8c", "#fd7e14"]

  function Abs(x: int): nat {
    if x < 0 then -x else x
  }

  /** One round of the hash: `code + ((hash << 5) - hash)`. The shifted
      term is a 32-bit value, so a round moves the hash by less than 2^31
      beyond the code unit and the hash itself. */
  function HashStep(hash: int, code: int): (r: int)
    ensures Abs(r) <= Abs(hash) + Abs(code) + TwoTo31
  {
    code + (ShiftLeft5(hash) - hash)
  }

  /** The hash of a sequence of UTF-16 code units, folded from the left
      starting at 0. It grows at most linearly in the number of units, so
      the operands stay exact integers: see ExactHash. */
  function Hash(units: seq<int>): (h: int)
    ensures units == [] ==> h == 0
    ensures (forall i :: 0 <= i < |units| ==> 0 <= units[i] < 0x1_0000) ==>
              Abs(h) <= |units| * (TwoTo31 + 0x1_0000)
  {
    if units == [] then 0
    else
      var front := units[..|units| - 1];
      assert forall i :: 0 <= i < |front| ==> front[i] == units[i];
      HashStep(Hash(front), units[|units| - 1])
  }

  /** `colors[Math.abs(hash) % colors.length]` for the hash of the name's
      code units. */
  function AvatarColorOf(username: string): (color: string)
    ensures color in Palette
  {
    Palette[Abs(Hash(CodeUnits(username))) % |Palette|]
  }

  /** `getAvatarColor`: the loop over the name's code units. */
  method AvatarColor(username: string) returns (color: string)
    ensures color == AvatarColorOf(username)
    ensures color in Palette
  {
    var units := CodeUnits(username);
    var hash := 0;
    for i := 0 to |units|
      invariant hash == Hash(units[..i])
    {
      assert units[..i + 1][..i] == units[..i];
      hash := units[i] + (ToInt32(ToInt32(hash) * 32) - hash);
    }
    assert units[..|units|] == units;
    color := Palette[Abs(hash) % |Palette|];
  }

  /** The empty name leaves the hash at 0 and gets the first colour. */
  lemma EmptyNameColor()
    ensures AvatarColorOf("") == "#007bff"
  {
  }

  /** While the hash is small, `(hash << 5) - hash` is `31 * hash`. */
  lemma StepWhileSmall(hash: int, code: int)
    requires -0x400_0000 <= hash < 0x400_0000
    ensures HashStep(hash, code) == 31 * hash + code
  {
  }

  /** For names of up to four million code units every intermediate hash
      is an integer below 2^53 in absolute value, so the floating-point
      arithmetic of the source computes it exactly, as modelled here. */
  lemma ExactHash(username: string)
    requires Length(username) <= 4_000_000
    ensures var units := CodeUnits(username);
            forall k :: 0 <= k <= |units| ==> Abs(Hash(units[..k])) < 0x20_0000_0000_0000
  {
    var units := CodeUnits(username);
    forall k | 0 <= k <= |units|
      ensures Abs(Hash(units[..k])) < 0x20_0000_0000_0000
    {
      assert forall i :: 0 <= i < k ==> units[..k][i] == units[i];
    }
  }

  datatype UserRow = UserRow(username: string, avatarColor: string)

  /** What the panel shows: the number of users in its title and one row
      per user, or the placeholder when nobody is online. */
  datatype Panel = Panel(count: nat, rows: seq<UserRow>, placeholder: bool)

  function Render(users: seq<OnlineUser>): (p: Panel)
    ensures p.count == |users|
    ensures p.placeholder <==> users == []
    ensures |p.rows| == |users|
    ensures forall i :: 0 <= i < |users| ==>
              p.rows[i].username == users[i].username && p.rows[i].avatarColor == AvatarColorOf(users[i].username)
  {
    Panel(|users|,
          seq(|users|, i requires 0 <= i < |users| =>
                UserRow(users[i].username, AvatarColorOf(users[i].username))),
          users == [])
  }
}
