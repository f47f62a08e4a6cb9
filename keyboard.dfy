/** The pressed-key tracker of src/keyboard.ts: a set of key codes that window
    `keydown` events add to, `keyup` events remove from and `blur` empties, and
    the `isDown(...keys)` query over it. The window listeners themselves are
    event wiring; here each listener body is a method. */
module Keyboard {

  /** `keys.some((key) => pressed.has(key))`: true exactly when one of the
      listed codes is in the set. */
  function AnyPressed(pressed: set<string>, keys: seq<string>): (r: bool)
    ensures r <==> exists i :: 0 <= i < |keys| && keys[i] in pressed
  {
    if keys == [] then false
    else
      var rest := AnyPressed(pressed, keys[1..]);
      assert forall i :: 1 <= i < |keys| ==> keys[i] == keys[1..][i - 1];
      keys[0] in pressed || rest
  }

  /** The answer depends only on which listed codes are pressed: two sets that
      agree on every listed code give the same answer. */
  lemma {:induction false} AnyPressedOnlyReadsListed(p: set<string>, q: set<string>, keys: seq<string>)
    requires forall i :: 0 <= i < |keys| ==> (keys[i] in p <==> keys[i] in q)
    ensures AnyPressed(p, keys) == AnyPressed(q, keys)
  {
    if keys != [] {
      AnyPressedOnlyReadsListed(p, q, keys[1..]);
    }
  }

  /** With nothing pressed, no query is true; with no codes listed, the query is false. */
  lemma {:induction false} NothingPressed(pressed: set<string>, keys: seq<string>)
    ensures !AnyPressed({}, keys)
    ensures !AnyPressed(pressed, [])
  {
    if keys != [] {
      NothingPressed(pressed, keys[1..]);
    }
  }

  /** After `keydown(code)`, every query listing that code is true. */
  lemma KeyDownMakesDown(pressed: set<string>, code: string, keys: seq<string>)
    requires code in keys
    ensures AnyPressed(pressed + {code}, keys)
  {
    var i :| 0 <= i < |keys| && keys[i] == code;
    assert keys[i] in pressed + {code};
  }

  /** After `keyup(code)`, a query that lists only that code is false. */
  lemma KeyUpMakesUp(pressed: set<string>, code: string, keys: seq<string>)
    requires forall i :: 0 <= i < |keys| ==> keys[i] == code
    ensures !AnyPressed(pressed - {code}, keys)
  {
  }

  /** `keydown`/`keyup` of one code leave every query that does not list it as it was. */
  lemma OtherKeysUnaffected(pressed: set<string>, code: string, keys: seq<string>)
    requires code !in keys
    ensures AnyPressed(pressed + {code}, keys) == AnyPressed(pressed, keys)
    ensures AnyPressed(pressed - {code}, keys) == AnyPressed(pressed, keys)
  {
    AnyPressedOnlyReadsListed(pressed + {code}, pressed, keys);
    AnyPressedOnlyReadsListed(pressed - {code}, pressed, keys);
  }

  /** The module-level `pressedKeys` set and its three listeners. */
  class PressedKeys {
    var pressed: set<string>

    /** `new Set<string>()`. */
    constructor ()
      ensures pressed == {}
    {
      pressed := {};
    }

    /** `isDown(...keys)`: some listed code is currently pressed. */
    function IsDown(keys: seq<string>): (r: bool)
      reads this
      ensures r <==> exists i :: 0 <= i < |keys| && keys[i] in pressed
    {
      AnyPressed(pressed, keys)
    }

    /** The `keydown` listener: `pressedKeys.add(e.code)`. */
    method KeyDown(code: string)
      modifies this
      ensures pressed == old(pressed) + {code}
      ensures code in old(pressed) ==> pressed == old(pressed)
      ensures forall keys: seq<string> :: code in keys ==> IsDown(keys)
      ensures forall keys: seq<string> :: code !in keys ==> IsDown(keys) == old(IsDown(keys))
    {
      pressed := pressed + {code};
      forall keys: seq<string> | code in keys ensures IsDown(keys) {
        KeyDownMakesDown(old(pressed), code, keys);
      }
      forall keys: seq<string> | code !in keys ensures IsDown(keys) == old(IsDown(keys)) {
        OtherKeysUnaffected(old(pressed), code, keys);
      }
    }

    /** The `keyup` listener: `pressedKeys.delete(e.code)`. */
    method KeyUp(code: string)
      modifies this
      ensures pressed == old(pressed) - {code}
      ensures !IsDown([code])
      ensures forall keys: seq<string> :: code !in keys ==> IsDown(keys) == old(IsDown(keys))
    {
      pressed := pressed - {code};
      KeyUpMakesUp(old(pressed), code, [code]);
      forall keys: seq<string> | code !in keys ensures IsDown(keys) == old(IsDown(keys)) {
        OtherKeysUnaffected(old(pressed), code, keys);
      }
    }

    /** The `blur` listener: `pressedKeys.clear()`. */
    method Blur()
      modifies this
      ensures pressed == {}
      ensures forall keys: seq<string> :: !IsDown(keys)
    {
      pressed := {};
      forall keys: seq<string> ensures !IsDown(keys) {
        NothingPressed(pressed, keys);
      }
    }
  }
}
