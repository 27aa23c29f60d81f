/** Values shared by the whole model: optional references, 3D vectors and
    transforms, actor identity, status flag sets and the decimal rendering of
    integers that the game uses for actor IDs and UI text. */
module Common {

  /** A nullable reference of the C# code: `None` stands for `null`. */
  datatype Option<+T> = None | Some(value: T)

  /** An XNA `Vector3`; floats are modelled as reals. */
  datatype Vec3 = Vec3(x: real, y: real, z: real) {
    function Plus(o: Vec3): Vec3 { Vec3(x + o.x, y + o.y, z + o.z) }
    function Times(k: real): Vec3 { Vec3(k * x, k * y, k * z) }
    function Negated(): Vec3 { Vec3(-x, -y, -z) }
  }

  const Zero: Vec3 := Vec3(0.0, 0.0, 0.0)

  /** The position, rotation (in degrees) and scale of a 3D actor. */
  datatype Transform3D = Transform3D(translation: Vec3, rotationInDegrees: Vec3, scale: Vec3)

  /** The `ActorType` tags this core reads or writes; every other tag is `OtherType`. */
  datatype ActorType =
    | CollidablePlayer | CollidablePickup | CollidableDecorator | CollidableObstacle
    | Enemy | Obstacle | Decorator | Helper | Ground | Sky | Camera3D | OtherType

  /** Which runtime class an actor reference has, as far as the `is` tests of the
      collision responses can tell: a `CollidableZoneObject`, a
      `CollidablePrimitiveObject` (or a subclass of it), or anything else. */
  datatype ActorKind = ZoneObject | PrimitiveObject | PlainActor

  /** An actor as other components see it through a reference. */
  datatype Actor = Actor(id: string, actorType: ActorType, kind: ActorKind)

  /** `StatusType` is a bit set; `Off` is the empty set. */
  datatype StatusFlag = Drawn | Update
  type Status = set<StatusFlag>
  const Off: Status := {}

  /** The decimal digit for `d`. */
  function DigitChar(d: nat): (c: char)
    requires d < 10
    ensures '0' <= c <= '9'
  {
    ('0' as int + d) as char
  }

  /** The value of a decimal digit character. */
  function DigitValue(c: char): (d: nat)
    requires '0' <= c <= '9'
    ensures d < 10 && DigitChar(d) == c
  {
    (c as int - '0' as int) as nat
  }

  /** `n.ToString()` for a non-negative `int`: decimal digits, no sign, no leading zeros. */
  function NatToString(n: nat): (s: string)
    ensures |s| >= 1
    ensures forall i :: 0 <= i < |s| ==> '0' <= s[i] <= '9'
    ensures |s| > 1 ==> s[0] != '0'
    decreases n
  {
    if n < 10 then [DigitChar(n)] else NatToString(n / 10) + [DigitChar(n % 10)]
  }

  /** `i.ToString()` for any `int`: a minus sign before the digits of a negative value. */
  function IntToString(i: int): (s: string)
    ensures |s| >= 1
    ensures s[0] == '-' <==> i < 0
  {
    if i < 0 then "-" + NatToString(-i) else NatToString(i)
  }

  /** Reads a string of decimal digits back as a number (the inverse of `NatToString`). */
  function ParseDigits(s: string): nat
    requires forall i :: 0 <= i < |s| ==> '0' <= s[i] <= '9'
    decreases |s|
  {
    if |s| == 0 then 0 else ParseDigits(s[..|s| - 1]) * 10 + DigitValue(s[|s| - 1])
  }

  /** Reads the text of `IntToString` back. */
  function ParseInt(s: string): int
    requires |s| >= 1
    requires forall i :: (if s[0] == '-' then 1 else 0) <= i < |s| ==> '0' <= s[i] <= '9'
  {
    if s[0] == '-' then -(ParseDigits(s[1..]) as int) else ParseDigits(s)
  }

  lemma {:induction false} ParseNatToString(n: nat)
    ensures ParseDigits(NatToString(n)) == n
    decreases n
  {
    if n >= 10 {
      var s := NatToString(n / 10);
      var t := s + [DigitChar(n % 10)];
      assert t == NatToString(n);
      assert t[..|t| - 1] == s;
      assert DigitValue(t[|t| - 1]) == n % 10;
      ParseNatToString(n / 10);
      assert ParseDigits(t) == (n / 10) * 10 + n % 10;
    } else {
      assert NatToString(n) == [DigitChar(n)];
      assert [DigitChar(n)][..0] == [];
    }
  }

  /** Decimal rendering loses nothing: the text of an integer determines it. */
  lemma IntToStringRoundTrip(i: int)
    ensures forall k :: (if IntToString(i)[0] == '-' then 1 else 0) <= k < |IntToString(i)| ==>
              '0' <= IntToString(i)[k] <= '9'
    ensures ParseInt(IntToString(i)) == i
  {
    var s := IntToString(i);
    if i < 0 {
      var d := NatToString(-i);
      assert s == "-" + d;
      assert s[1..] == d;
      forall k | 1 <= k < |s|
        ensures '0' <= s[k] <= '9'
      {
        assert s[k] == d[k - 1];
      }
      ParseNatToString(-i);
    } else {
      assert s == NatToString(i);
      ParseNatToString(i);
    }
  }

  /** Two integers with the same decimal text are equal. */
  lemma IntToStringInjective(a: int, b: int)
    requires IntToString(a) == IntToString(b)
    ensures a == b
  {
    IntToStringRoundTrip(a);
    IntToStringRoundTrip(b);
  }

  lemma NatToStringInjective(a: nat, b: nat)
    requires NatToString(a) == NatToString(b)
    ensures a == b
  {
    ParseNatToString(a);
    ParseNatToString(b);
  }

  /** Equal prefixes followed by decimal numbers: the numbers are equal exactly when the texts are. */
  lemma PrefixedNumberInjective(p: string, a: nat, b: nat)
    ensures p + NatToString(a) == p + NatToString(b) <==> a == b
  {
    if p + NatToString(a) == p + NatToString(b) {
      assert NatToString(a) == (p + NatToString(a))[|p|..];
      assert NatToString(b) == (p + NatToString(b))[|p|..];
      NatToStringInjective(a, b);
    }
  }
}
