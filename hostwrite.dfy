/**
  Pushing the selected font into the host editor. `SetFontTextObject` sets the
  font of the selected objects (or of the focused one); `CreateVariableFontObject`
  creates a new object from one of the two alias templates. The host is given
  as data: which entry points its edit section offers, which objects are
  selected, and how it answers each call.
*/
module Host {
  import opened Wrappers
  import opened Fonts
  import opened Alias

  /** The control identifiers of the two "add object" buttons. */
  const IDC_ADD_VF_BUTTON: int := 1006
  const IDC_ADD_BUTTON: int := 1010

  /** The effect names the writes address. */
  const VariableFontEffect := "Variable Font Text"
  const TextEffect := "テキスト"

  /** A non-null object handle. */
  type ObjectId = nat

  /** What `call_edit_section_param` does with a callback: it declines (and
      returns false), or it runs the callback with its edit section (null
      when `None`) and returns a flag of its own. */
  datatype SectionCall<S> = Declined | Ran(section: Option<S>, returned: bool)

  function Called<S>(c: SectionCall<S>): bool
  {
    c.Ran? && c.returned
  }

  // ---------------------------------------------------------------- SetFontTextObject

  /** One `set_object_item_value` request: effect, item, value. */
  datatype Write = Write(effect: string, item: string, value: string)

  /** One request as the host receives it, addressed to an object. */
  datatype SetCall = SetCall(obj: ObjectId, write: Write)

  /** The writes made to each object: a system font names itself in the
      standard Text effect and in Variable Font Text (clearing the font file);
      a folder font clears the name and gives the file path. */
  function WritePlan(item: FontItem): (plan: seq<Write>)
    ensures |plan| == if item.isSystemFont then 3 else 2
    ensures forall w | w in plan :: w.item == FontKey || w.item == FontFileKey
    ensures forall w | w in plan :: w.effect == VariableFontEffect || w.effect == TextEffect
    ensures item.isSystemFont <==> Write(TextEffect, FontKey, item.displayName) in plan
    ensures forall w | w in plan && w.effect == TextEffect :: w.value == item.displayName
  {
    if item.isSystemFont then
      [Write(TextEffect, FontKey, item.displayName),
       Write(VariableFontEffect, FontKey, item.displayName),
       Write(VariableFontEffect, FontFileKey, [])]
    else
      [Write(VariableFontEffect, FontKey, []),
       Write(VariableFontEffect, FontFileKey, item.filePath)]
  }

  /** The Variable Font Text writes give an existing object exactly the font
      identity a newly created Variable Font Text object has: for both keys
      there is a write, and each write's value is the one in the alias. */
  lemma {:induction false} PlanAgreesWithAlias(item: FontItem)
    ensures forall w | w in WritePlan(item) && w.effect == VariableFontEffect ::
              FindKey(VariableFontIdentity(item), w.item) == Some(w.value)
    ensures exists w :: w in WritePlan(item) && w.effect == VariableFontEffect && w.item == FontKey
    ensures exists w :: w in WritePlan(item) && w.effect == VariableFontEffect && w.item == FontFileKey
  {
    var head := VariableFontIdentity(item);
    assert "effect.name" != FontKey && FontFileKey != FontKey && "effect.name" != FontFileKey;
    FindKeyThree(head[0], head[1], head[2], FontKey);
    FindKeyThree(head[0], head[1], head[2], FontFileKey);
    var plan := WritePlan(item);
    if item.isSystemFont {
      assert plan[1].item == FontKey && plan[2].item == FontFileKey;
      assert plan[1] in plan && plan[2] in plan;
    } else {
      assert plan[0].item == FontKey && plan[1].item == FontFileKey;
      assert plan[0] in plan && plan[1] in plan;
    }
  }

  /** The host's edit section as the `SetFontTextObject` callback sees it. */
  datatype EditSection = EditSection(
    hasSetter: bool,                          // set_object_item_value is present
    selectedNum: Option<int>,                 // get_selected_object_num(), when present
    selectedObject: int -> Option<ObjectId>,  // get_selected_object(i); None is a null handle
    focus: Option<ObjectId>,                  // get_focus_object()
    accepts: set<SetCall>)                    // the requests the host answers with true

  /** The number of selected objects the callback walks: 0 without the counter. */
  function SelectedNum(es: EditSection): int
  {
    if es.selectedNum.Some? then es.selectedNum.value else 0
  }

  /** Whether an object counts as updated: it is not null and at least one
      of its writes was accepted (every write is attempted). */
  predicate Updates(es: EditSection, obj: Option<ObjectId>, plan: seq<Write>)
  {
    obj.Some? && exists w :: w in plan && SetCall(obj.value, w) in es.accepts
  }

  /** The requests made for one object: the whole plan, none for a null handle. */
  function CallsFor(obj: Option<ObjectId>, plan: seq<Write>): (calls: seq<SetCall>)
    ensures obj.None? ==> calls == []
    ensures obj.Some? ==> |calls| == |plan|
    ensures obj.Some? ==> forall i :: 0 <= i < |plan| ==> calls[i] == SetCall(obj.value, plan[i])
  {
    if plan == [] || obj.None? then []
    else [SetCall(obj.value, plan[0])] + CallsFor(obj, plan[1..])
  }

  /** The number of the first `k` selected objects that were updated. */
  function SelectedCount(es: EditSection, plan: seq<Write>, k: nat): nat
  {
    if k == 0 then 0
    else SelectedCount(es, plan, k - 1) + (if Updates(es, es.selectedObject(k - 1), plan) then 1 else 0)
  }

  /** The requests made for the first `k` selected objects, in order. */
  function SelectedCalls(es: EditSection, plan: seq<Write>, k: nat): seq<SetCall>
  {
    if k == 0 then [] else SelectedCalls(es, plan, k - 1) + CallsFor(es.selectedObject(k - 1), plan)
  }

  /** Some selected object was updated exactly when the count is positive. */
  lemma {:induction false} SelectedCountPositive(es: EditSection, plan: seq<Write>, k: nat)
    ensures SelectedCount(es, plan, k) > 0 <==> exists i :: 0 <= i < k && Updates(es, es.selectedObject(i), plan)
  {
    if k > 0 {
      SelectedCountPositive(es, plan, k - 1);
      if Updates(es, es.selectedObject(k - 1), plan) {
        assert 0 <= k - 1 < k;
      } else {
        forall i | 0 <= i < k && Updates(es, es.selectedObject(i), plan)
          ensures 0 <= i < k - 1
        {
        }
      }
    }
  }

  /** Whether the callback reports an update: only when the edit section and
      its setter exist; then on the selected objects when the host reports at
      least one, otherwise on the focused object. */
  predicate SectionUpdates(section: Option<EditSection>, plan: seq<Write>)
  {
    section.Some? && section.value.hasSetter &&
    var es := section.value;
    if SelectedNum(es) >= 1 then exists i :: 0 <= i < SelectedNum(es) && Updates(es, es.selectedObject(i), plan)
    else Updates(es, es.focus, plan)
  }

  /** The requests the callback makes, in order. */
  function SectionCalls(section: Option<EditSection>, plan: seq<Write>): seq<SetCall>
  {
    if section.None? || !section.value.hasSetter then []
    else if SelectedNum(section.value) >= 1 then SelectedCalls(section.value, plan, SelectedNum(section.value))
    else CallsFor(section.value.focus, plan)
  }

  /** `applyToObject`: every write of the plan is sent (the results are or-ed
      without short-circuit); true when the host accepted at least one. */
  method ApplyToObject(es: EditSection, obj: Option<ObjectId>, item: FontItem) returns (ok: bool, calls: seq<SetCall>)
    ensures ok == Updates(es, obj, WritePlan(item))
    ensures calls == CallsFor(obj, WritePlan(item))
  {
    ghost var plan := WritePlan(item);
    if obj.None? {
      return false, [];
    }
    var o := obj.value;
    var writes: seq<Write>;
    if item.isSystemFont {
      writes := [Write(TextEffect, FontKey, item.displayName),
                 Write(VariableFontEffect, FontKey, item.displayName),
                 Write(VariableFontEffect, FontFileKey, [])];
    } else {
      writes := [Write(VariableFontEffect, FontKey, []),
                 Write(VariableFontEffect, FontFileKey, item.filePath)];
    }
    ok := false;
    calls := [];
    var j := 0;
    while j < |writes|
      invariant 0 <= j <= |writes| && writes == plan
      invariant calls == CallsFor(obj, writes[..j])
      invariant ok <==> exists w :: w in writes[..j] && SetCall(o, w) in es.accepts
    {
      var accepted := SetCall(o, writes[j]) in es.accepts;
      assert writes[..j + 1] == writes[..j] + [writes[j]];
      CallsForSnoc(obj, writes[..j], writes[j]);
      ok := ok || accepted;
      calls := calls + [SetCall(o, writes[j])];
      j := j + 1;
    }
    assert writes[..j] == writes;
  }

  lemma {:induction false} CallsForSnoc(obj: Option<ObjectId>, plan: seq<Write>, w: Write)
    requires obj.Some?
    ensures CallsFor(obj, plan + [w]) == CallsFor(obj, plan) + [SetCall(obj.value, w)]
  {
    var a := CallsFor(obj, plan + [w]);
    var b := CallsFor(obj, plan) + [SetCall(obj.value, w)];
    assert |a| == |b|;
    forall i | 0 <= i < |a| ensures a[i] == b[i] {
      if i < |plan| {
        assert (plan + [w])[i] == plan[i];
      }
    }
  }

  /** The callback of `SetFontTextObject`: returns early (leaving the flag
      false) without an edit section or setter; walks the selected objects
      when the host reports at least one, counting the updated ones; otherwise
      updates the focused object. */
  method RunSetCallback(section: Option<EditSection>, item: FontItem) returns (updated: bool, calls: seq<SetCall>)
    ensures updated == SectionUpdates(section, WritePlan(item))
    ensures calls == SectionCalls(section, WritePlan(item))
  {
    updated := false;
    calls := [];
    if section.None? || !section.value.hasSetter {
      return;
    }
    var es := section.value;
    ghost var plan := WritePlan(item);
    var n := if es.selectedNum.Some? then es.selectedNum.value else 0;
    if n >= 1 {
      var updatedCount := 0;
      var i := 0;
      while i < n
        invariant 0 <= i <= n
        invariant updatedCount == SelectedCount(es, plan, i)
        invariant calls == SelectedCalls(es, plan, i)
      {
        var obj := es.selectedObject(i);
        var ok, c := ApplyToObject(es, obj, item);
        if ok {
          updatedCount := updatedCount + 1;
        }
        calls := calls + c;
        i := i + 1;
      }
      SelectedCountPositive(es, plan, n);
      updated := updatedCount > 0;
      return;
    }
    updated, calls := ApplyToObject(es, es.focus, item);
  }

  /** `SetFontTextObject`: nothing happens without a valid selection or an
      edit handle; otherwise the callback runs through the host, and the
      result is true only when the host reports the call and the callback
      reports an update. `calls` lists the requests the host received. */
  method SetFontTextObject(fonts: seq<FontItem>, selected: int, editHandle: bool, host: SectionCall<EditSection>)
    returns (ok: bool, calls: seq<SetCall>)
    ensures !(0 <= selected < |fonts|) || !editHandle || host.Declined? ==> !ok && calls == []
    ensures 0 <= selected < |fonts| && editHandle && host.Ran? ==>
              calls == SectionCalls(host.section, WritePlan(fonts[selected])) &&
              (ok <==> host.returned && SectionUpdates(host.section, WritePlan(fonts[selected])))
  {
    if selected < 0 || selected >= |fonts| {
      return false, [];
    }
    var item := fonts[selected];
    if !editHandle {
      return false, [];
    }
    var updated := false;
    calls := [];
    if host.Ran? {
      updated, calls := RunSetCallback(host.section, item);
    }
    ok := Called(host) && updated;
  }

  /** Every request goes to an object the host handed out, and only the two
      font keys are ever written. */
  lemma {:induction false} CallsStayOnFontKeys(section: Option<EditSection>, item: FontItem)
    ensures forall c | c in SectionCalls(section, WritePlan(item)) ::
              c.write in WritePlan(item) && (c.write.item == FontKey || c.write.item == FontFileKey)
  {
    var plan := WritePlan(item);
    if section.Some? && section.value.hasSetter {
      var es := section.value;
      if SelectedNum(es) >= 1 {
        SelectedCallsInPlan(es, plan, SelectedNum(es));
      }
    }
  }

  lemma {:induction false} SelectedCallsInPlan(es: EditSection, plan: seq<Write>, k: nat)
    ensures forall c | c in SelectedCalls(es, plan, k) :: c.write in plan
  {
    if k > 0 {
      SelectedCallsInPlan(es, plan, k - 1);
    }
  }

  // ---------------------------------------------------------------- CreateVariableFontObject

  /** Where the host places a new object: the edit section's layer and frame. */
  datatype Placement = Placement(layer: int, frame: int)

  /** The host's edit section as the `CreateVariableFontObject` callback sees it. */
  datatype CreateSection = CreateSection(
    hasCreate: bool,          // create_object_from_alias is present
    info: Option<Placement>,  // edit->info, when not null
    returnsObject: bool)      // whether create_object_from_alias returns an object

  /** The arguments of `create_object_from_alias`. */
  datatype CreateRequest = CreateRequest(alias: string, layer: int, frame: int, length: int)

  datatype CreateOutcome = CreateOutcome(ok: bool, request: Option<CreateRequest>)

  /** The alias sent for each button: the Variable Font Text template, the
      standard Text template, or an empty alias for any other identifier. */
  function AliasForButton(flags: int, item: FontItem, text: string, frameLength: int): string
  {
    if flags == IDC_ADD_VF_BUTTON then BuildVFAliasFromSelection(item, text, frameLength)
    else if flags == IDC_ADD_BUTTON then BuildAliasFromSelection(item, text, frameLength)
    else []
  }

  /** `CreateVariableFontObject(flags)`: fails without a valid selection or an
      edit handle; computes the length from the host's edit information (when
      `get_edit_info` exists, `editInfo` is what it reports); then asks the host
      to create the object at the edit position (layer 0, frame 0 without it).
      The result is true only when the host reports the call and returns an object. */
  function CreateVariableFontObject(flags: int, fonts: seq<FontItem>, selected: int, sampleText: string,
                                    editHandle: bool, editInfo: Option<EditInfo>,
                                    host: SectionCall<CreateSection>): (r: CreateOutcome)
    ensures r.ok <==> 0 <= selected < |fonts| && editHandle && Called(host) &&
                      host.section.Some? && host.section.value.hasCreate && host.section.value.returnsObject
    ensures r.request.Some? <==> 0 <= selected < |fonts| && editHandle && host.Ran? &&
                                 host.section.Some? && host.section.value.hasCreate
    ensures r.request.Some? ==>
              var sec := host.section.value;
              && r.request.value.alias == AliasForButton(flags, fonts[selected], sampleText, FrameLengthFor(editInfo))
              && r.request.value.layer == (if sec.info.Some? then sec.info.value.layer else 0)
              && r.request.value.frame == (if sec.info.Some? then sec.info.value.frame else 0)
              && r.request.value.length == 0
  {
    if !(0 <= selected < |fonts|) || !editHandle then CreateOutcome(false, None)
    else
      var frameLength := FrameLengthFor(editInfo);
      var alias := AliasForButton(flags, fonts[selected], sampleText, frameLength);
      if host.Declined? || host.section.None? || !host.section.value.hasCreate then CreateOutcome(false, None)
      else
        var sec := host.section.value;
        var layer := if sec.info.Some? then sec.info.value.layer else 0;
        var frame := if sec.info.Some? then sec.info.value.frame else 0;
        CreateOutcome(host.returned && sec.returnsObject, Some(CreateRequest(alias, layer, frame, 0)))
  }

  /** A Variable Font Text object created with the button reads back, in the
      host, with the computed length, the selected font's identity and the
      sample text, and that identity is the one `SetFontTextObject` writes. */
  lemma CreatedObjectMatchesWrites(fonts: seq<FontItem>, selected: int, sampleText: string,
                                   editHandle: bool, editInfo: Option<EditInfo>,
                                   host: SectionCall<CreateSection>)
    requires 0 <= selected < |fonts| && AliasInputsOk(fonts[selected], sampleText)
    ensures var r := CreateVariableFontObject(IDC_ADD_VF_BUTTON, fonts, selected, sampleText, editHandle, editInfo, host);
            r.request.Some? ==>
              var a := Parse(r.request.value.alias);
              && Lookup(a, "Object", "frame") == Some("0," + Decimal(FrameLengthFor(editInfo)))
              && Lookup(a, "Object.0", "effect.name") == Some(VariableFontEffect)
              && Lookup(a, "Object.0", TextKey) == Some(sampleText)
              && (forall w | w in WritePlan(fonts[selected]) && w.effect == VariableFontEffect ::
                    Lookup(a, "Object.0", w.item) == Some(w.value))
  {
    var item := fonts[selected];
    var len := FrameLengthFor(editInfo);
    AliasTextsReadBack(item, sampleText, len);
    VariableFontAliasContents(item, sampleText, len);
    PlanAgreesWithAlias(item);
    VariableFontIdentityFound(item, sampleText);
    var a := VariableFontAlias(item, sampleText, len);
    forall w | w in WritePlan(item) && w.effect == VariableFontEffect
      ensures Lookup(a, "Object.0", w.item) == Some(w.value)
    {
      assert w.item == FontKey || w.item == FontFileKey;
      if w.item == FontKey {
        assert FindKey(VariableFontIdentity(item), FontKey) == Some(if item.isSystemFont then item.displayName else "");
      } else {
        assert FindKey(VariableFontIdentity(item), FontFileKey) == Some(if item.isSystemFont then "" else item.filePath);
      }
    }
  }
}
