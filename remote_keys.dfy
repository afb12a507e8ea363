/**
 * The remote-control key table of script.ts and dist/script.js. The remote emulates a keyboard
 * and sends one character when a button goes down and a different one when it comes up; the table
 * maps each logical key to that pair. `handleRemoteKey` walks the table in property order and acts
 * on the first binding whose down or up character is the key that arrived.
 */
module RemoteKeys {
  import opened Wrappers

  /** The logical keys: the property names of the table. */
  datatype RemoteKey = X | Y | A | B | Mirror | ArrowLeft | ArrowRight | ArrowUp | ArrowDown

  /** The property order of the table, which `Object.entries` follows. */
  const Order: seq<RemoteKey> := [X, Y, A, B, Mirror, ArrowLeft, ArrowRight, ArrowUp, ArrowDown]

  /** The character sent when the button goes down. */
  function Down(k: RemoteKey): string {
    match k
    case X => "y"
    case Y => "u"
    case A => "h"
    case B => "j"
    case Mirror => "o"
    case ArrowLeft => "a"
    case ArrowRight => "d"
    case ArrowUp => "w"
    case ArrowDown => "x"
  }

  /** The character sent when the button comes up. */
  function Up(k: RemoteKey): string {
    match k
    case X => "t"
    case Y => "f"
    case A => "r"
    case B => "n"
    case Mirror => "g"
    case ArrowLeft => "q"
    case ArrowRight => "c"
    case ArrowUp => "e"
    case ArrowDown => "z"
  }

  /** Which half of which binding a character is. */
  datatype KeyMatch = DownOf(key: RemoteKey) | UpOf(key: RemoteKey)

  function CharOf(m: KeyMatch): string {
    match m
    case DownOf(k) => Down(k)
    case UpOf(k) => Up(k)
  }

  /** Where a logical key sits in the table. */
  function Index(k: RemoteKey): (i: nat)
    ensures i < |Order| && Order[i] == k
  {
    match k
    case X => 0
    case Y => 1
    case A => 2
    case B => 3
    case Mirror => 4
    case ArrowLeft => 5
    case ArrowRight => 6
    case ArrowUp => 7
    case ArrowDown => 8
  }

  /** The bindings from position `i` of the table on, searched in order: the first whose down or
      up character is `c`. */
  function Find(c: string, i: nat): (r: Option<KeyMatch>)
    requires i <= |Order|
    ensures r.Some? ==> CharOf(r.value) == c
    decreases |Order| - i
  {
    if i == |Order| then None
    else if Down(Order[i]) == c then Some(DownOf(Order[i]))
    else if Up(Order[i]) == c then Some(UpOf(Order[i]))
    else Find(c, i + 1)
  }

  /** The table read backwards: the binding half a character belongs to, if any. */
  function Decode(c: string): (r: Option<KeyMatch>)
    ensures r.Some? ==> CharOf(r.value) == c
  {
    Find(c, 0)
  }

  lemma DecodeDown(k: RemoteKey)
    ensures Decode(Down(k)) == Some(DownOf(k))
  {
    match k {
      case X => case Y => case A => case B => case Mirror =>
      case ArrowLeft => case ArrowRight => case ArrowUp => case ArrowDown =>
    }
  }

  lemma DecodeUp(k: RemoteKey)
    ensures Decode(Up(k)) == Some(UpOf(k))
  {
    match k {
      case X => case Y => case A => case B => case Mirror =>
      case ArrowLeft => case ArrowRight => case ArrowUp => case ArrowDown =>
    }
  }

  /** Every binding half is found again by its character. */
  lemma DecodeCharOf(m: KeyMatch)
    ensures Decode(CharOf(m)) == Some(m)
  {
    match m {
      case DownOf(k) => DecodeDown(k);
      case UpOf(k) => DecodeUp(k);
    }
  }

  /** No character appears in two bindings, nor as both halves of one. */
  lemma BindingsDistinct(m1: KeyMatch, m2: KeyMatch)
    ensures CharOf(m1) == CharOf(m2) ==> m1 == m2
  {
    DecodeCharOf(m1);
    DecodeCharOf(m2);
  }

  /** Whether some binding of the table has `key` as its down or its up character. */
  predicate IsBound(key: string) {
    exists i :: 0 <= i < |Order| && (Down(Order[i]) == key || Up(Order[i]) == key)
  }

  /** A character is bound exactly when the reverse table knows it. */
  lemma BoundIffDecoded(key: string)
    ensures IsBound(key) <==> Decode(key).Some?
  {
    if IsBound(key) {
      var i :| 0 <= i < |Order| && (Down(Order[i]) == key || Up(Order[i]) == key);
      if Down(Order[i]) == key {
        DecodeCharOf(DownOf(Order[i]));
      } else {
        DecodeCharOf(UpOf(Order[i]));
      }
    }
    if Decode(key).Some? {
      var i := Index(Decode(key).value.key);
      assert Down(Order[i]) == key || Up(Order[i]) == key;
    }
  }

  /** The space bar is not a remote character, so the keyboard fallback can see it. */
  lemma SpaceUnbound()
    ensures !IsBound(" ") && Decode(" ") == None
  {
    BoundIffDecoded(" ");
  }

  /** The search loop of `handleRemoteKey`: the first binding, in table order, whose down or up
      character is `key`. */
  method Lookup(key: string) returns (m: Option<KeyMatch>)
    ensures m == Decode(key)
    ensures m.Some? ==> CharOf(m.value) == key
  {
    var i := 0;
    while i < |Order|
      invariant 0 <= i <= |Order|
      invariant Find(key, i) == Decode(key)
    {
      var k := Order[i];
      if Down(k) == key {
        return Some(DownOf(k));
      }
      if Up(k) == key {
        return Some(UpOf(k));
      }
      i := i + 1;
    }
    return None;
  }
}
