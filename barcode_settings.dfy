/**
 * The scanner settings: the list of enabled code types, stored as
 * `{ enabledTypes: [...] }` under one key of the device's key-value store,
 * falling back to the platform's supported list.
 */
module BarcodeSettings {
  import opened Wrappers
  import opened Barcode
  import opened Constants

  /**
   * The `enabledTypes` field of a stored settings object after parsing: a
   * falsy value (missing, `null`), a list, or a truthy value that is not a
   * list and so has neither `includes` nor `filter`.
   */
  datatype EnabledField = Missing | Types(list: seq<CodeType>) | NotAList

  /**
   * The storage entry under the settings key: nothing stored (or an empty
   * string), a parsed settings object, or an entry that cannot be read or parsed.
   */
  datatype SettingsSlot = NoEntry | Entry(enabledTypes: EnabledField) | Unreadable

  /** What `getEnabledTypes` resolves to: a list, or the stored non-list value. */
  datatype EnabledTypes = TypeList(types: seq<CodeType>) | NonList

  /** Why a settings operation was rejected. */
  datatype SettingsError = WriteFailed | NotAListError

  /**
   * `getEnabledTypes`: the stored field when it is truthy, otherwise the
   * platform's supported list. A stored empty list is truthy and is kept.
   */
  function ReadEnabledTypes(slot: SettingsSlot, os: Platform): (enabled: EnabledTypes)
    ensures enabled.NonList? <==> slot == Entry(NotAList)
    ensures !slot.Entry? || slot.enabledTypes.Missing? ==> enabled == TypeList(SupportedBarcodeTypes(os))
    ensures slot.Entry? && slot.enabledTypes.Types? ==> enabled == TypeList(slot.enabledTypes.list)
  {
    match slot
    case NoEntry => TypeList(SupportedBarcodeTypes(os))
    case Unreadable => TypeList(SupportedBarcodeTypes(os))
    case Entry(field) =>
      match field
      case Missing => TypeList(SupportedBarcodeTypes(os))
      case Types(list) => TypeList(list)
      case NotAList => NonList
  }

  /** `isTypeEnabled`: list membership; when `includes` throws, the type counts as enabled. */
  function TypeEnabled(slot: SettingsSlot, os: Platform, t: CodeType): (enabled: bool)
    ensures !enabled <==> ReadEnabledTypes(slot, os).TypeList? && t !in ReadEnabledTypes(slot, os).types
  {
    match ReadEnabledTypes(slot, os)
    case TypeList(types) => t in types
    case NonList => true
  }

  /** The list `enableType` writes: `t` appended at the end unless it is already there. */
  function WithType(types: seq<CodeType>, t: CodeType): (r: seq<CodeType>)
    ensures t in r
    ensures forall x :: x in r <==> x in types || x == t
    ensures |types| <= |r| && r[..|types|] == types
    ensures t in types <==> r == types
    ensures t !in types ==> |r| == |types| + 1
  {
    if t in types then types else types + [t]
  }

  /** `types.filter(x => x !== t)`. */
  function WithoutType(types: seq<CodeType>, t: CodeType): (r: seq<CodeType>)
    ensures forall x :: x in r <==> x in types && x != t
    ensures multiset(r) == multiset(types)[t := 0]
    ensures |r| == |types| - multiset(types)[t]
  {
    if types == [] then []
    else
      assert types == [types[0]] + types[1..];
      (if types[0] == t then [] else [types[0]]) + WithoutType(types[1..], t)
  }

  /** Nothing stored, an unreadable entry, or a missing field all read as the platform list. */
  lemma DefaultWhenUnset(os: Platform)
    ensures ReadEnabledTypes(NoEntry, os) == TypeList(SupportedBarcodeTypes(os))
    ensures ReadEnabledTypes(Unreadable, os) == TypeList(SupportedBarcodeTypes(os))
    ensures ReadEnabledTypes(Entry(Missing), os) == TypeList(SupportedBarcodeTypes(os))
  {
  }

  /** A stored list reads back verbatim, duplicates and unknown identifiers included. */
  lemma StoredListReadsBack(types: seq<CodeType>, os: Platform)
    ensures ReadEnabledTypes(Entry(Types(types)), os) == TypeList(types)
  {
  }

  /** A stored empty list is not replaced by the default: every type is then disabled. */
  lemma StoredEmptyDisablesAll(os: Platform, t: CodeType)
    ensures !TypeEnabled(Entry(Types([])), os, t)
  {
  }

  /** A stored non-list value makes every membership check fail open. */
  lemma NonListFailsOpen(os: Platform, t: CodeType)
    ensures TypeEnabled(Entry(NotAList), os, t)
  {
  }

  /** A failed read is answered from the platform list, so an unsupported type reads as disabled. */
  lemma UnreadableUsesPlatformList(os: Platform, t: CodeType)
    ensures TypeEnabled(Unreadable, os, t) <==> t in SupportedBarcodeTypes(os)
    ensures !TypeEnabled(Unreadable, os, "unknown")
  {
    assert "unknown" !in DefaultBarcodeTypesIos;
  }

  /** Filtering distributes over concatenation, so the remaining types keep their order. */
  lemma {:induction false} WithoutTypeConcat(a: seq<CodeType>, b: seq<CodeType>, t: CodeType)
    ensures WithoutType(a + b, t) == WithoutType(a, t) + WithoutType(b, t)
  {
    if a != [] {
      assert (a + b)[1..] == a[1..] + b;
      WithoutTypeConcat(a[1..], b, t);
    } else {
      assert a + b == b;
    }
  }

  /** Disabling a type that is not in the list leaves the list unchanged. */
  lemma {:induction false} WithoutAbsentType(types: seq<CodeType>, t: CodeType)
    requires t !in types
    ensures WithoutType(types, t) == types
  {
    if types != [] {
      WithoutAbsentType(types[1..], t);
    }
  }

  /** Enabling twice is enabling once; disabling twice is disabling once. */
  lemma EnableDisableIdempotent(types: seq<CodeType>, t: CodeType)
    ensures WithType(WithType(types, t), t) == WithType(types, t)
    ensures WithoutType(WithoutType(types, t), t) == WithoutType(types, t)
  {
    WithoutAbsentType(WithoutType(types, t), t);
  }

  /** Disabling right after enabling gives what disabling alone gives. */
  lemma DisableAfterEnable(types: seq<CodeType>, t: CodeType)
    ensures WithoutType(WithType(types, t), t) == WithoutType(types, t)
  {
    if t !in types {
      WithoutTypeConcat(types, [t], t);
      assert WithoutType([t], t) == [];
    }
  }

  /** Enabling right after disabling moves the type to the end of the list. */
  lemma EnableAfterDisable(types: seq<CodeType>, t: CodeType)
    ensures WithType(WithoutType(types, t), t) == WithoutType(types, t) + [t]
  {
  }

  /**
   * `BarcodeSettingsService`: its static methods read and rewrite the one
   * settings entry, modelled as the field `slot`; `os` is the platform the
   * default list is chosen for. A storage write either succeeds or is
   * rejected (`accepted`); a rejected write leaves the entry as it was and
   * the operation reports the failure to its caller.
   */
  class BarcodeSettingsService {
    var slot: SettingsSlot
    const os: Platform

    constructor (stored: SettingsSlot, platform: Platform)
      ensures slot == stored && os == platform
    {
      slot := stored;
      os := platform;
    }

    /** `getEnabledTypes`: never fails; falls back to the platform list. */
    method GetEnabledTypes() returns (enabled: EnabledTypes)
      ensures enabled == ReadEnabledTypes(slot, os)
      ensures !slot.Entry? || slot.enabledTypes.Missing? ==> enabled == TypeList(SupportedBarcodeTypes(os))
      ensures slot.Entry? && slot.enabledTypes.Types? ==> enabled == TypeList(slot.enabledTypes.list)
    {
      enabled := ReadEnabledTypes(slot, os);
    }

    /** `isTypeEnabled`: membership in the enabled list, `true` when the check throws. */
    method IsTypeEnabled(t: CodeType) returns (b: bool)
      ensures b == TypeEnabled(slot, os, t)
      ensures ReadEnabledTypes(slot, os).TypeList? ==> (b <==> t in ReadEnabledTypes(slot, os).types)
      ensures ReadEnabledTypes(slot, os).NonList? ==> b
    {
      var enabled := GetEnabledTypes();
      match enabled
      case TypeList(types) => b := t in types;
      case NonList => b := true;
    }

    /** `setEnabledTypes`: stores `types` verbatim. */
    method SetEnabledTypes(types: seq<CodeType>, accepted: bool) returns (o: Outcome<SettingsError>)
      modifies this
      ensures o.Pass? <==> accepted
      ensures slot == if accepted then Entry(Types(types)) else old(slot)
      ensures accepted ==> ReadEnabledTypes(slot, os) == TypeList(types)
    {
      if accepted {
        slot := Entry(Types(types));
        o := Pass;
      } else {
        o := Fail(WriteFailed);
      }
    }

    /**
     * `enableType`: appends `t` when it is absent and writes; writes nothing
     * when `t` is already enabled; fails when the stored value is not a list.
     */
    method EnableType(t: CodeType, accepted: bool) returns (o: Outcome<SettingsError>)
      modifies this
      ensures old(ReadEnabledTypes(slot, os)).NonList? ==> o == Fail(NotAListError) && slot == old(slot)
      ensures old(ReadEnabledTypes(slot, os)).TypeList? ==>
        var types := old(ReadEnabledTypes(slot, os)).types;
        if t in types then o == Pass && slot == old(slot)
        else (o.Pass? <==> accepted) && slot == (if accepted then Entry(Types(WithType(types, t))) else old(slot))
      ensures o.Pass? ==> TypeEnabled(slot, os, t)
    {
      var enabled := GetEnabledTypes();
      match enabled
      case NonList =>
        o := Fail(NotAListError);
      case TypeList(types) =>
        if t !in types {
          o := SetEnabledTypes(WithType(types, t), accepted);
        } else {
          o := Pass;
        }
    }

    /**
     * `disableType`: writes the list without any occurrence of `t`; fails
     * when the stored value is not a list.
     */
    method DisableType(t: CodeType, accepted: bool) returns (o: Outcome<SettingsError>)
      modifies this
      ensures old(ReadEnabledTypes(slot, os)).NonList? ==> o == Fail(NotAListError) && slot == old(slot)
      ensures old(ReadEnabledTypes(slot, os)).TypeList? ==>
        (o.Pass? <==> accepted) &&
        slot == if accepted then Entry(Types(WithoutType(old(ReadEnabledTypes(slot, os)).types, t))) else old(slot)
      ensures o.Pass? ==> !TypeEnabled(slot, os, t)
    {
      var enabled := GetEnabledTypes();
      match enabled
      case NonList =>
        o := Fail(NotAListError);
      case TypeList(types) =>
        var filtered := WithoutType(types, t);
        o := SetEnabledTypes(filtered, accepted);
    }

    /** `enableAllTypes`: stores the platform list. */
    method EnableAllTypes(accepted: bool) returns (o: Outcome<SettingsError>)
      modifies this
      ensures o.Pass? <==> accepted
      ensures slot == if accepted then Entry(Types(SupportedBarcodeTypes(os))) else old(slot)
      ensures accepted ==> forall t :: TypeEnabled(slot, os, t) <==> t in SupportedBarcodeTypes(os)
    {
      o := SetEnabledTypes(SupportedBarcodeTypes(os), accepted);
    }

    /** `disableAllTypes`: stores the empty list, which then disables every type. */
    method DisableAllTypes(accepted: bool) returns (o: Outcome<SettingsError>)
      modifies this
      ensures o.Pass? <==> accepted
      ensures slot == if accepted then Entry(Types([])) else old(slot)
      ensures accepted ==> forall t :: !TypeEnabled(slot, os, t)
    {
      o := SetEnabledTypes([], accepted);
    }
  }
}
