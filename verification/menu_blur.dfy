/**
  The menu blur: while the `#menu-trigger` checkbox is checked, the first
  `.wrapper` element carries the `blurry` class. The wrapper is modelled by
  its class set, or None when the page has no such element.
 */
module MenuBlur {
  import opened JsValues

  /** The class the handler adds and removes. */
  const Blurry := "blurry"

  /** The checkbox's change handler: add "blurry" when checked, remove it otherwise; do nothing without a wrapper. */
  function OnMenuChange(wrapper: Option<set<string>>, checked: bool): (r: Option<set<string>>)
    ensures wrapper.None? ==> r == None
    ensures wrapper.Some? ==> r.Some? && (Blurry in r.value <==> checked)
    ensures wrapper.Some? ==> r.value - {Blurry} == wrapper.value - {Blurry}
  {
    match wrapper
    case None => None
    case Some(classes) => Some(if checked then classes + {Blurry} else classes - {Blurry})
  }

  /** Handling the same checked value twice is the same as handling it once. */
  lemma OnMenuChangeIdempotent(wrapper: Option<set<string>>, checked: bool)
    ensures OnMenuChange(OnMenuChange(wrapper, checked), checked) == OnMenuChange(wrapper, checked)
  {
  }

  /** The handler is memoryless: only the latest checked value matters. */
  lemma OnMenuChangeLastWins(wrapper: Option<set<string>>, first: bool, second: bool)
    ensures OnMenuChange(OnMenuChange(wrapper, first), second) == OnMenuChange(wrapper, second)
  {
    if wrapper.Some? {
      var classes := wrapper.value;
      var once := OnMenuChange(wrapper, first).value;
      if second {
        assert once + {Blurry} == classes + {Blurry};
      } else {
        assert once - {Blurry} == classes - {Blurry};
      }
    }
  }

  /** A wrapper that already agrees with the checkbox is left exactly as it was. */
  lemma OnMenuChangeFixpoint(classes: set<string>, checked: bool)
    ensures OnMenuChange(Some(classes), checked) == Some(classes) <==> (Blurry in classes <==> checked)
  {
    if Blurry in classes && checked {
      assert classes + {Blurry} == classes;
    } else if Blurry !in classes && !checked {
      assert classes - {Blurry} == classes;
    }
  }
}
