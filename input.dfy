/** `useInput` (src/hooks/useInput.ts): one `keys` record of five flags, updated flag by flag on
    every keydown and keyup event. Key names are matched after ASCII lower-casing. */
module Input {

  import opened Wrappers
  import Text
  import Entities

  /** The flag a key drives. */
  datatype Flag = Up | Down | Left | Right | Escape

  /** The `switch (event.key.toLowerCase())` of both handlers. */
  function KeyFlag(key: string): Option<Flag>
  {
    var k := Text.ToLower(key);
    if k == "w" || k == "arrowup" then Some(Up)
    else if k == "s" || k == "arrowdown" then Some(Down)
    else if k == "a" || k == "arrowleft" then Some(Left)
    else if k == "d" || k == "arrowright" then Some(Right)
    else if k == "escape" then Some(Escape)
    else None
  }

  function FlagOf(s: Entities.InputState, f: Flag): bool
  {
    match f
    case Up => s.up
    case Down => s.down
    case Left => s.left
    case Right => s.right
    case Escape => s.escape
  }

  /** `{ ...prev, [flag]: value }`: exactly the named flag takes the value. */
  function WithFlag(s: Entities.InputState, f: Flag, value: bool): (r: Entities.InputState)
    ensures FlagOf(r, f) == value
    ensures forall g :: g != f ==> FlagOf(r, g) == FlagOf(s, g)
  {
    match f
    case Up => s.(up := value)
    case Down => s.(down := value)
    case Left => s.(left := value)
    case Right => s.(right := value)
    case Escape => s.(escape := value)
  }

  /** The record after one event: keydown writes true, keyup false, to the key's flag; an
      unmapped key leaves the record as it is. */
  function AfterKey(s: Entities.InputState, key: string, down: bool): Entities.InputState
  {
    match KeyFlag(key)
    case None => s
    case Some(f) => WithFlag(s, f, down)
  }

  const NoKeys: Entities.InputState := Entities.InputState(false, false, false, false, false)

  /** The hook's state cell. */
  class Keyboard {
    var keys: Entities.InputState

    /** All five flags start false. */
    constructor()
      ensures keys == NoKeys
      ensures forall f :: !FlagOf(keys, f)
    {
      keys := NoKeys;
    }

    /** `handleKeyDown`. */
    method KeyDown(key: string)
      modifies this
      ensures keys == AfterKey(old(keys), key, true)
    {
      Press(key, true);
    }

    /** `handleKeyUp`. */
    method KeyUp(key: string)
      modifies this
      ensures keys == AfterKey(old(keys), key, false)
    {
      Press(key, false);
    }

    /** The shared `switch`, writing `value` to the matched flag. */
    method Press(key: string, value: bool)
      modifies this
      ensures keys == AfterKey(old(keys), key, value)
    {
      var k := Text.ToLower(key);
      if k == "w" || k == "arrowup" {
        keys := keys.(up := value);
      } else if k == "s" || k == "arrowdown" {
        keys := keys.(down := value);
      } else if k == "a" || k == "arrowleft" {
        keys := keys.(left := value);
      } else if k == "d" || k == "arrowright" {
        keys := keys.(right := value);
      } else if k == "escape" {
        keys := keys.(escape := value);
      }
    }
  }

  /** A mapped key sets exactly its flag (to true on keydown, false on keyup) and an unmapped
      key changes nothing, so every event changes at most one flag. */
  lemma AfterKeyFacts(s: Entities.InputState, key: string, down: bool)
    ensures KeyFlag(key).Some? ==>
      FlagOf(AfterKey(s, key, down), KeyFlag(key).value) == down
      && forall g :: g != KeyFlag(key).value ==> FlagOf(AfterKey(s, key, down), g) == FlagOf(s, g)
    ensures KeyFlag(key).None? ==> AfterKey(s, key, down) == s
    ensures forall f, g ::
      f != g && FlagOf(AfterKey(s, key, down), f) != FlagOf(s, f)
      ==> FlagOf(AfterKey(s, key, down), g) == FlagOf(s, g)
  {
  }

  /** Matching ignores ASCII case: a key and its lower-case spelling drive the same flag. */
  lemma KeyFlagCaseInsensitive(key: string)
    ensures KeyFlag(key) == KeyFlag(Text.ToLower(key))
  {
    Text.ToLowerIdempotent(key);
  }

  /** The letter keys in either case drive the movement flags. */
  lemma KeyTableLetters()
    ensures KeyFlag("w") == KeyFlag("W") == Some(Up)
    ensures KeyFlag("s") == KeyFlag("S") == Some(Down)
    ensures KeyFlag("a") == KeyFlag("A") == Some(Left)
    ensures KeyFlag("d") == KeyFlag("D") == Some(Right)
    ensures KeyFlag("x") == None
  {
    assert Text.ToLower("W") == "w" && Text.ToLower("w") == "w";
    assert Text.ToLower("S") == "s" && Text.ToLower("s") == "s";
    assert Text.ToLower("A") == "a" && Text.ToLower("a") == "a";
    assert Text.ToLower("D") == "d" && Text.ToLower("d") == "d";
    assert Text.ToLower("x") == "x";
  }

  /** The arrow keys drive the movement flags too, and Escape the escape flag. */
  lemma KeyTableNamed()
    ensures KeyFlag("ArrowUp") == Some(Up) && KeyFlag("ArrowDown") == Some(Down)
    ensures KeyFlag("ArrowLeft") == Some(Left) && KeyFlag("ArrowRight") == Some(Right)
    ensures KeyFlag("Escape") == Some(Escape)
  {
    LowerName("ArrowUp", "arrowup");
    LowerName("ArrowDown", "arrowdown");
    LowerName("ArrowLeft", "arrowleft");
    LowerName("ArrowRight", "arrowright");
    LowerName("Escape", "escape");
  }

  lemma LowerName(key: string, lower: string)
    requires |key| == |lower| && forall i :: 0 <= i < |key| ==> Text.LowerChar(key[i]) == lower[i]
    ensures Text.ToLower(key) == lower
  {
  }

  /** Repeating an event changes nothing more (auto-repeat keydowns are harmless), and a keyup
      undoes a keydown of the same key when the flag was clear before. */
  lemma AfterKeyIdempotent(s: Entities.InputState, key: string, down: bool)
    ensures AfterKey(AfterKey(s, key, down), key, down) == AfterKey(s, key, down)
    ensures KeyFlag(key).Some? && !FlagOf(s, KeyFlag(key).value) ==>
      AfterKey(AfterKey(s, key, true), key, false) == s
  {
    if KeyFlag(key).Some? {
      var f := KeyFlag(key).value;
      var once := AfterKey(s, key, down);
      FlagsDetermine(AfterKey(once, key, down), once);
      if !FlagOf(s, f) {
        FlagsDetermine(AfterKey(AfterKey(s, key, true), key, false), s);
      }
    }
  }

  /** Two records with the same five flags are equal. */
  lemma FlagsDetermine(a: Entities.InputState, b: Entities.InputState)
    requires forall f :: FlagOf(a, f) == FlagOf(b, f)
    ensures a == b
  {
    assert FlagOf(a, Up) == FlagOf(b, Up) && FlagOf(a, Down) == FlagOf(b, Down);
    assert FlagOf(a, Left) == FlagOf(b, Left) && FlagOf(a, Right) == FlagOf(b, Right);
    assert FlagOf(a, Escape) == FlagOf(b, Escape);
  }
}
