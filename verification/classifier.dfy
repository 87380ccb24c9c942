/** The device classifier: decides from a USB device's registry name whether
    the device counts as a keyboard, and which name it is known by. */
module Classifier {
  import opened Wrappers

  /** Registry name of the built-in keyboard/trackpad; never a keyboard event. */
  const BuiltInKeyboardName: string := "Apple Internal Keyboard / Trackpad"

  /** Generic registry name that some USB keyboards report; always a keyboard. */
  const GenericHostDeviceName: string := "IOUSBHostDevice"

  /** Any other name is a keyboard exactly when it ends with this suffix. */
  const KeyboardSuffix: string := "Keyboard"

  /** A handle delivered by a notification iterator. `NullService` is the
      null object an exhausted iterator yields; a `Device` carries the outcome
      of looking its registry name up (None when the lookup fails). */
  datatype Service = NullService | Device(registryName: Option<string>)

  /** The registry-name lookup: it fails on the null object and otherwise
      reports whatever the registry answered for the device. */
  function RegistryName(service: Service): Option<string> {
    match service
    case NullService => None
    case Device(name) => name
  }

  /** Case-sensitive suffix test, comparing characters from the end. */
  function HasSuffix(s: string, suffix: string): bool
    decreases |suffix|
  {
    if |suffix| == 0 then true
    else if |s| == 0 then false
    else s[|s| - 1] == suffix[|suffix| - 1] && HasSuffix(s[..|s| - 1], suffix[..|suffix| - 1])
  }

  /** Reference meaning of "ends with": the last |suffix| characters are `suffix`. */
  ghost predicate EndsWith(s: string, suffix: string) {
    |suffix| <= |s| && s[|s| - |suffix|..] == suffix
  }

  lemma {:induction false} HasSuffixMeansEndsWith(s: string, suffix: string)
    ensures HasSuffix(s, suffix) <==> EndsWith(s, suffix)
    decreases |suffix|
  {
    if |suffix| != 0 && |s| != 0 {
      var s', t' := s[..|s| - 1], suffix[..|suffix| - 1];
      HasSuffixMeansEndsWith(s', t');
      if |suffix| <= |s| {
        assert s[|s| - |suffix|..] == s'[|s'| - |t'|..] + [s[|s| - 1]];
        assert suffix == t' + [suffix[|suffix| - 1]];
      }
    }
  }

  lemma {:induction false} ConcatenationEndsWithSuffix(prefix: string, suffix: string)
    ensures HasSuffix(prefix + suffix, suffix)
  {
    var s := prefix + suffix;
    assert s[|s| - |suffix|..] == suffix;
    HasSuffixMeansEndsWith(s, suffix);
  }

  /** Classifies the device behind `service`: Some(name) when it is a
      keyboard, None when it is not or when its name cannot be looked up. */
  function KeyboardName(service: Service): (r: Option<string>)
    ensures RegistryName(service).None? ==> r.None?
    ensures r.Some? ==> RegistryName(service) == r
    ensures RegistryName(service) == Some(BuiltInKeyboardName) ==> r.None?
    ensures RegistryName(service) == Some(GenericHostDeviceName) ==> r == Some(GenericHostDeviceName)
  {
    match RegistryName(service)
    case None => None
    case Some(name) =>
      if name == BuiltInKeyboardName then None
      else if name == GenericHostDeviceName then Some(name)
      else if HasSuffix(name, KeyboardSuffix) then Some(name)
      else None
  }

  /** The two exceptions are real exceptions to the suffix rule only for the
      generic host device: the built-in name ends with "Trackpad", so the
      suffix test alone would already reject it. */
  lemma ExceptionNamesAgainstSuffix()
    ensures !EndsWith(BuiltInKeyboardName, KeyboardSuffix)
    ensures !EndsWith(GenericHostDeviceName, KeyboardSuffix)
    ensures KeyboardName(Device(Some(BuiltInKeyboardName))) == None
    ensures KeyboardName(Device(Some(GenericHostDeviceName))) == Some(GenericHostDeviceName)
  {
    var b := BuiltInKeyboardName;
    assert b[|b| - |KeyboardSuffix|] == 'T';
    var g := GenericHostDeviceName;
    assert g[|g| - 1] == 'e';
  }

  /** Full characterisation: a successfully looked-up name is a keyboard
      exactly when it is the generic host device or ends with "Keyboard",
      and the classifier then returns the name unchanged. */
  lemma {:induction false} KeyboardNameIff(name: string)
    ensures KeyboardName(Device(Some(name))).Some? <==>
            name == GenericHostDeviceName || EndsWith(name, KeyboardSuffix)
    ensures KeyboardName(Device(Some(name))).Some? ==> KeyboardName(Device(Some(name))).value == name
  {
    HasSuffixMeansEndsWith(name, KeyboardSuffix);
    ExceptionNamesAgainstSuffix();
  }

  /** Every name of the form `prefix + "Keyboard"` classifies as a keyboard
      under its own name, whatever the prefix. */
  lemma {:induction false} SuffixedNameIsKeyboard(prefix: string)
    ensures KeyboardName(Device(Some(prefix + KeyboardSuffix))) == Some(prefix + KeyboardSuffix)
  {
    ConcatenationEndsWithSuffix(prefix, KeyboardSuffix);
    HasSuffixMeansEndsWith(prefix + KeyboardSuffix, KeyboardSuffix);
    KeyboardNameIff(prefix + KeyboardSuffix);
  }

  /** Names without the suffix, other than the generic host device, are not keyboards. */
  lemma {:induction false} UnsuffixedNameIsNotKeyboard(name: string)
    requires name != GenericHostDeviceName
    requires |name| < |KeyboardSuffix| || name[|name| - |KeyboardSuffix|..] != KeyboardSuffix
    ensures KeyboardName(Device(Some(name))) == None
  {
    KeyboardNameIff(name);
  }

  lemma ClassifierExamples()
    ensures KeyboardName(Device(Some("Logitech USB Keyboard"))) == Some("Logitech USB Keyboard")
    ensures KeyboardName(Device(Some("Trackpad"))) == None
    ensures KeyboardName(Device(None)) == None
    ensures KeyboardName(NullService) == None
  {
    SuffixedNameIsKeyboard("Logitech USB ");
    assert "Logitech USB " + KeyboardSuffix == "Logitech USB Keyboard";
    UnsuffixedNameIsNotKeyboard("Trackpad");
  }
}
