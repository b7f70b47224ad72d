/**
 * The name-entry screen: the player's name is typed one character at a time, backspace erases
 * the last one, only printable ASCII is accepted and the name never grows past 15 characters.
 * Enter with a non-empty name starts the game.
 */
module NameEntry {
  const MaxNameLength := 15
  const BackspaceCode := 8

  /** A character code the screen accepts: printable ASCII, from space to tilde. */
  predicate IsPrintable(code: int) {
    32 <= code < 127
  }

  predicate PrintableName(name: string) {
    forall i :: 0 <= i < |name| ==> IsPrintable(name[i] as int)
  }

  /**
   * The name after one text-entered event: backspace drops the last character of a non-empty
   * name, a printable character is appended while the name is shorter than 15, and every other
   * code leaves the name as it is.
   */
  function Typed(name: string, code: nat): (r: string)
    ensures r == name || (name != [] && r == name[..|name| - 1]) || (|r| == |name| + 1 && r[..|name|] == name)
    ensures |r| > |name| <==> code != BackspaceCode && IsPrintable(code) && |name| < MaxNameLength
    ensures |r| < |name| <==> code == BackspaceCode && name != []
    ensures |r| > |name| ==> r[|name|] as int == code
  {
    if code == BackspaceCode then
      if name == [] then name else name[..|name| - 1]
    else if IsPrintable(code) then
      if |name| < MaxNameLength then name + [code as char] else name
    else name
  }

  /** The name after a run of text-entered events. */
  function TypedAll(name: string, codes: seq<nat>): string
    decreases |codes|
  {
    if codes == [] then name else TypedAll(Typed(name, codes[0]), codes[1..])
  }

  /** However many characters are typed, the name stays within 15 printable characters. */
  lemma {:induction false} TypingKeepsNameValid(name: string, codes: seq<nat>)
    requires |name| <= MaxNameLength && PrintableName(name)
    ensures |TypedAll(name, codes)| <= MaxNameLength && PrintableName(TypedAll(name, codes))
    decreases |codes|
  {
    if codes != [] {
      var next := Typed(name, codes[0]);
      assert PrintableName(next) by {
        forall i | 0 <= i < |next|
          ensures IsPrintable(next[i] as int)
        {
          if i < |name| {
            assert next[i] == name[i];
          }
        }
      }
      TypingKeepsNameValid(next, codes[1..]);
    }
  }

  /** Backspace right after an accepted character gives back the name as it was. */
  lemma BackspaceUndoesTyping(name: string, code: nat)
    requires IsPrintable(code) && |name| < MaxNameLength
    ensures Typed(Typed(name, code), BackspaceCode) == name
  {
    assert Typed(name, code)[..|name|] == name;
  }

  /** The name-entry screen: the name typed so far and whether the screen still takes input. */
  class NameScreen {
    var name: string
    var isActive: bool

    ghost predicate Valid()
      reads this
    {
      |name| <= MaxNameLength && PrintableName(name)
    }

    /** `onEnter`: an empty name and an active screen. */
    constructor ()
      ensures Valid() && name == [] && isActive
    {
      name := [];
      isActive := true;
    }

    /** A text-entered event: ignored once the screen is inactive, otherwise the name is edited. */
    method TextEntered(code: nat)
      requires Valid()
      modifies this`name
      ensures Valid()
      ensures name == if isActive then Typed(old(name), code) else old(name)
    {
      if !isActive {
        return;
      }
      if code == BackspaceCode {
        if name != [] {
          name := name[..|name| - 1];
        }
      } else if 32 <= code && code < 127 {
        if |name| < MaxNameLength {
          name := name + [code as char];
        }
      }
      TypingKeepsNameValid(old(name), [code]);
      assert [code][1..] == [];
    }

    /**
     * Enter: with a non-empty name the screen stops taking input and the game starts; with an
     * empty name nothing happens.
     */
    method EnterPressed() returns (startGame: bool)
      modifies this`isActive
      ensures startGame <==> old(isActive) && name != []
      ensures isActive == (old(isActive) && !startGame)
    {
      startGame := false;
      if !isActive {
        return;
      }
      if name != [] {
        isActive := false;
        startGame := true;
      }
    }
  }
}
