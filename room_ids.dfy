/**
 * The `/roomId` request handler of the server: draw ten characters from a
 * 62-character alphabet, and draw again until the room lookup finds nothing.
 * `Math.random()` is replaced by a supplied stream of draws in [0, 1), taken
 * ten at a time; the unbounded loop stops with `None` when the stream runs out.
 */
module RoomIds {
  import opened Wrappers
  import opened Protocol

  /**
   * The alphabet of index.js, "abc...xyzABC...XYZ012...789", defined by
   * position so that indexing it is arithmetic; CharSetIsSourceLiteral proves
   * it equal to the literal, written as its three runs.
   */
  const CHAR_SET: string := Run('a', 26) + Run('A', 26) + Run('0', 10)

  /** The `n` consecutive characters starting at `first`. */
  function Run(first: char, n: nat): (r: string)
    requires first as int + n <= 0xD800
    ensures |r| == n && forall k :: 0 <= k < n ==> r[k] as int == first as int + k
  {
    seq(n, k requires 0 <= k < n => (first as int + k) as char)
  }
  const ID_LENGTH: nat := 10

  predicate IsAlphanumeric(ch: char) {
    ('a' <= ch <= 'z') || ('A' <= ch <= 'Z') || ('0' <= ch <= '9')
  }

  /** The alphabet is exactly `a-zA-Z0-9`. */
  lemma CharSetIsAlphanumeric()
    ensures |CHAR_SET| == 62
    ensures forall ch :: ch in CHAR_SET <==> IsAlphanumeric(ch)
  {
    forall ch
      ensures ch in CHAR_SET <==> IsAlphanumeric(ch)
    {
      if 'a' <= ch <= 'z' {
        assert CHAR_SET[ch as int - 'a' as int] == ch;
      } else if 'A' <= ch <= 'Z' {
        assert CHAR_SET[26 + ch as int - 'A' as int] == ch;
      } else if '0' <= ch <= '9' {
        assert CHAR_SET[52 + ch as int - '0' as int] == ch;
      }
    }
  }

  lemma CharSetIsSourceLiteral()
    ensures CHAR_SET == "abcdefghijklmnopqrstuvwxyz" + "ABCDEFGHIJKLMNOPQRSTUVWXYZ" + "0123456789"
  {
  }

  predicate IsRoomId(id: string) {
    |id| == ID_LENGTH && forall i :: 0 <= i < |id| ==> IsAlphanumeric(id[i])
  }

  /** A value `Math.random()` can return. */
  predicate IsDraw(r: real) {
    0.0 <= r < 1.0
  }

  predicate AreDraws(draws: seq<real>) {
    forall i :: 0 <= i < |draws| ==> IsDraw(draws[i])
  }

  /** `Math.floor(r * charSet.length)`, with exact arithmetic on reals. */
  function CharIndex(r: real): (k: nat)
    requires IsDraw(r)
    ensures k < |CHAR_SET|
  {
    (r * |CHAR_SET| as real).Floor
  }

  /** The string the inner `for` loop builds from a run of draws. */
  function Spell(draws: seq<real>): (id: string)
    requires AreDraws(draws)
    ensures |id| == |draws|
    ensures forall i :: 0 <= i < |id| ==> id[i] == CHAR_SET[CharIndex(draws[i])]
  {
    if draws == [] then "" else Spell(draws[..|draws| - 1]) + [CHAR_SET[CharIndex(draws[|draws| - 1])]]
  }

  /** Appending one draw appends its character. */
  lemma SpellExtend(draws: seq<real>, i: nat)
    requires AreDraws(draws) && i < |draws|
    ensures Spell(draws[..i + 1]) == Spell(draws[..i]) + [CHAR_SET[CharIndex(draws[i])]]
  {
    assert draws[..i + 1][..i] == draws[..i];
  }

  /** The number of complete candidates a stream of draws yields. */
  function Attempts(random: seq<real>): nat {
    |random| / ID_LENGTH
  }

  /** The k-th candidate id: spelled from draws 10k to 10k+9. */
  function Candidate(random: seq<real>, k: nat): (id: string)
    requires AreDraws(random) && k < Attempts(random)
    ensures IsRoomId(id)
  {
    CharSetIsAlphanumeric();
    Spell(random[k * ID_LENGTH..(k + 1) * ID_LENGTH])
  }

  /**
   * The generator loop. `found` is the room lookup of the caller; the id
   * returned is the first candidate for which it finds nothing, and `None`
   * means every candidate the draws allowed was found.
   */
  method GenerateId(random: seq<real>, found: RoomName -> bool) returns (id: Option<RoomName>)
    requires AreDraws(random)
    ensures id.Some? ==> IsRoomId(id.value) && !found(id.value)
    ensures id.Some? ==>
      exists k :: 0 <= k < Attempts(random) && id.value == Candidate(random, k) &&
        forall j :: 0 <= j < k ==> found(Candidate(random, j))
    ensures id.None? ==> forall k :: 0 <= k < Attempts(random) ==> found(Candidate(random, k))
  {
    var attempt := 0;
    while attempt < Attempts(random)
      invariant attempt <= Attempts(random)
      invariant forall j :: 0 <= j < attempt ==> found(Candidate(random, j))
    {
      var start := attempt * ID_LENGTH;
      ghost var block := random[start..start + ID_LENGTH];
      var candidate := "";
      for i := 0 to ID_LENGTH
        invariant candidate == Spell(block[..i])
      {
        SpellExtend(block, i);
        candidate := candidate + [CHAR_SET[CharIndex(random[start + i])]];
      }
      assert block[..ID_LENGTH] == block;
      assert candidate == Candidate(random, attempt);
      if !found(candidate) {
        id := Some(candidate);
        assert 0 <= attempt < Attempts(random) && id.value == Candidate(random, attempt);
        return;
      }
      attempt := attempt + 1;
    }
    return None;
  }

  /**
   * The names a bracket lookup `m[name]` finds on a JavaScript `Map` object:
   * the properties of `Map.prototype` and `Object.prototype`, never the
   * entries stored in the map.
   */
  const MAP_OBJECT_PROPERTIES: set<string> := {
    "get", "set", "has", "delete", "clear", "entries", "forEach", "keys", "values", "size",
    "constructor", "hasOwnProperty", "isPrototypeOf", "propertyIsEnumerable", "toString",
    "toLocaleString", "valueOf", "__proto__", "__defineGetter__", "__defineSetter__",
    "__lookupGetter__", "__lookupSetter__"
  }

  /** The uniqueness check as written: `rooms[id] === undefined` fails only for a property name. */
  function BracketLookup(rooms: map<RoomName, set<ConnId>>, id: RoomName): (found: bool)
    ensures found ==> !IsRoomId(id)
    ensures found == BracketLookup(map[], id)
  {
    id in MAP_OBJECT_PROPERTIES
  }

  /** No property name of a `Map` object is a well-formed room id. */
  lemma BracketLookupMissesRoomIds(rooms: map<RoomName, set<ConnId>>, id: RoomName)
    requires IsRoomId(id)
    ensures !BracketLookup(rooms, id)
  {
  }

  /** The generator as written: it returns its first candidate, whatever rooms are active. */
  method GenerateIdAsWritten(random: seq<real>, rooms: map<RoomName, set<ConnId>>) returns (id: Option<RoomName>)
    requires AreDraws(random)
    ensures Attempts(random) > 0 ==> id == Some(Candidate(random, 0))
    ensures Attempts(random) == 0 ==> id.None?
  {
    id := GenerateId(random, name => BracketLookup(rooms, name));
    if id.Some? {
      var k :| 0 <= k < Attempts(random) && id.value == Candidate(random, k) &&
        forall j :: 0 <= j < k ==> BracketLookup(rooms, Candidate(random, j));
      BracketLookupMissesRoomIds(rooms, Candidate(random, 0));
      assert k == 0;
    } else if Attempts(random) > 0 {
      BracketLookupMissesRoomIds(rooms, Candidate(random, 0));
    }
  }

  /** Ten draws of 0.0 spell "aaaaaaaaaa", which the as-written check accepts even when it is active. */
  lemma AsWrittenAcceptsActiveRoom()
    ensures var random := seq(ID_LENGTH, _ => 0.0);
      var rooms := map["aaaaaaaaaa" := {1}];
      Candidate(random, 0) == "aaaaaaaaaa" && "aaaaaaaaaa" in rooms && !BracketLookup(rooms, "aaaaaaaaaa")
  {
    var random := seq(ID_LENGTH, _ => 0.0);
    var id := Candidate(random, 0);
    assert random[0..ID_LENGTH] == random;
    forall i | 0 <= i < ID_LENGTH
      ensures id[i] == 'a'
    {
      assert CharIndex(random[i]) == 0;
      assert CHAR_SET[0] == 'a';
    }
    assert id == "aaaaaaaaaa";
  }

  /** The generator with the lookup on the map's entries: it never returns an active room. */
  method GenerateFreshId(random: seq<real>, rooms: map<RoomName, set<ConnId>>) returns (id: Option<RoomName>)
    requires AreDraws(random)
    ensures id.Some? ==> IsRoomId(id.value) && id.value !in rooms
    ensures id.None? ==> forall k :: 0 <= k < Attempts(random) ==> Candidate(random, k) in rooms
  {
    id := GenerateId(random, name => name in rooms);
  }
}
