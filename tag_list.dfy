/** The tag-list handlers of the two command forms,
    app/components/forms/BotCommandModalForm.tsx and
    app/components/forms/BotCommandForm.tsx, which share them verbatim.
    Each handler computes the next tag list from the current one; the
    component then stores it with `setInputs`. */
module TagList {
  import opened Wrappers
  import Strings

  /** A react-tag-input tag. */
  datatype Tag = Tag(id: string, text: string)

  /** `tags.filter((tag, _index) => _index !== index)`, with the element
      positions counted from zero. */
  function HandleDelete(tags: seq<Tag>, index: int): (r: seq<Tag>)
    ensures 0 <= index < |tags| ==> r == tags[..index] + tags[index + 1..]
    ensures !(0 <= index < |tags|) ==> r == tags
    decreases |tags|
  {
    if |tags| == 0 then []
    else
      var rest := HandleDelete(tags[1..], index - 1);
      var r := (if index == 0 then [] else [tags[0]]) + rest;
      assert 0 < index < |tags| ==> tags[1..][..index - 1] == tags[1..index];
      assert 0 < index < |tags| ==> tags[..index] == [tags[0]] + tags[1..index];
      r
  }

  /** `[...tags, tag]`. */
  function HandleAddition(tags: seq<Tag>, tag: Tag): (r: seq<Tag>)
    ensures |r| == |tags| + 1
    ensures r[..|tags|] == tags && r[|tags|] == tag
  {
    tags + [tag]
  }

  /** `onClearAll`. */
  function OnClearAll(): (r: seq<Tag>)
    ensures |r| == 0
  {
    []
  }

  /** The start index `Array.prototype.splice` uses: a negative start counts
      from the end, and the result is clamped to `[0, len]`. */
  function SpliceStart(start: int, len: nat): (r: nat)
    ensures r <= len
    ensures 0 <= start <= len ==> r == start
    ensures start > len ==> r == len
    ensures -(len as int) <= start < 0 ==> r == len + start
    ensures start < -(len as int) ==> r == 0
  {
    if start < 0 then (if len + start < 0 then 0 else len + start)
    else if start > len then len
    else start
  }

  /** The array left by `a.splice(start, deleteCount, ...items)`. */
  function Splice(a: seq<Tag>, start: int, deleteCount: int, items: seq<Tag>): (r: seq<Tag>)
    ensures var s := SpliceStart(start, |a|);
      0 <= deleteCount <= |a| - s ==> r == a[..s] + items + a[s + deleteCount..]
    ensures var s := SpliceStart(start, |a|);
      deleteCount <= 0 ==> r == a[..s] + items + a[s..]
    ensures start >= |a| ==> r == a + items
  {
    var s := SpliceStart(start, |a|);
    var d := if deleteCount < 0 then 0 else if deleteCount > |a| - s then |a| - s else deleteCount;
    a[..s] + items + a[s + d..]
  }

  /** `onInputUpdate`: splice the new tag over position `index` of a copy.
      In range this replaces that one tag; past the end the tag is appended,
      and a negative index counts from the end. */
  method OnInputUpdate(inputs: seq<Tag>, index: int, newTag: Tag) returns (updated: seq<Tag>)
    ensures 0 <= index < |inputs| ==> updated == inputs[index := newTag]
    ensures index >= |inputs| ==> updated == inputs + [newTag]
    ensures -|inputs| <= index < 0 ==> updated == inputs[|inputs| + index := newTag]
    ensures index < -|inputs| && |inputs| > 0 ==> updated == inputs[0 := newTag]
    ensures index < 0 && |inputs| == 0 ==> updated == [newTag]
  {
    updated := inputs;
    updated := Splice(updated, index, 1, [newTag]);
    if 0 <= index < |inputs| {
      assert updated == inputs[..index] + [newTag] + inputs[index + 1..];
    } else if -|inputs| <= index < 0 {
      assert updated == inputs[..|inputs| + index] + [newTag] + inputs[|inputs| + index + 1..];
    } else if index < -|inputs| && |inputs| > 0 {
      assert updated == [newTag] + inputs[1..];
    } else if index < 0 && |inputs| == 0 {
      assert updated == [] + [newTag] + [];
    }
  }

  /** `handleDrag`: on a copy, remove position `currentPosition`, then insert
      `tag` at `newPosition`. For positions in range the length is kept,
      `tag` lands at `newPosition`, and taking it out again leaves the list
      without the moved position. When `tag` is the tag being moved, the
      result is a permutation of the input. */
  method HandleDrag(inputs: seq<Tag>, tag: Tag, currentPosition: int, newPosition: int)
    returns (newTags: seq<Tag>)
    ensures 0 <= currentPosition < |inputs| && 0 <= newPosition < |inputs| ==>
      && |newTags| == |inputs|
      && newTags[newPosition] == tag
      && newTags[..newPosition] + newTags[newPosition + 1..]
         == inputs[..currentPosition] + inputs[currentPosition + 1..]
    ensures 0 <= currentPosition < |inputs| && tag == inputs[currentPosition] ==>
      multiset(newTags) == multiset(inputs)
  {
    newTags := inputs;
    newTags := Splice(newTags, currentPosition, 1, []);
    ghost var removed := newTags;
    newTags := Splice(newTags, newPosition, 0, [tag]);
    if 0 <= currentPosition < |inputs| {
      assert removed == inputs[..currentPosition] + inputs[currentPosition + 1..];
      RemoveAt(inputs, currentPosition);
      var p := SpliceStart(newPosition, |removed|);
      assert newTags == removed[..p] + [tag] + removed[p..];
      InsertAt(removed, p, tag);
      if newPosition < |inputs| {
        assert 0 <= newPosition ==> p == newPosition;
      }
      if tag == inputs[currentPosition] {
        assert multiset(newTags) == multiset(removed) + multiset{inputs[currentPosition]};
      }
    }
  }

  /** Taking out position `c` shortens the list by one and removes one copy
      of that tag. */
  lemma RemoveAt(a: seq<Tag>, c: nat)
    requires c < |a|
    ensures |a[..c] + a[c + 1..]| == |a| - 1
    ensures multiset(a[..c] + a[c + 1..]) + multiset{a[c]} == multiset(a)
  {
    assert a == a[..c] + [a[c]] + a[c + 1..];
  }

  /** Putting `t` at position `p` lengthens the list by one, `t` sits at `p`,
      taking it out again gives the list back, and one copy of `t` is
      added. */
  lemma InsertAt(a: seq<Tag>, p: nat, t: Tag)
    requires p <= |a|
    ensures var b := a[..p] + [t] + a[p..];
      && |b| == |a| + 1 && b[p] == t
      && b[..p] + b[p + 1..] == a
      && multiset(b) == multiset(a) + multiset{t}
  {
    var b := a[..p] + [t] + a[p..];
    assert b[..p] == a[..p];
    assert b[p + 1..] == a[p..];
    assert a == a[..p] + a[p..];
  }

  /** The tag texts, in order. */
  function Texts(tags: seq<Tag>): (r: seq<string>)
    ensures |r| == |tags|
    ensures forall k :: 0 <= k < |tags| ==> r[k] == tags[k].text
    decreases |tags|
  {
    if |tags| == 0 then [] else [tags[0].text] + Texts(tags[1..])
  }

  /** `props.inputs ? props.inputs.map((input) => ({ id: input, text: input })) : []`. */
  function InitialTags(inputs: Option<seq<string>>): (r: seq<Tag>)
    ensures inputs.None? ==> r == []
    ensures inputs.Some? ==> |r| == |inputs.value|
    ensures inputs.Some? ==> forall k :: 0 <= k < |r| ==> r[k] == Tag(inputs.value[k], inputs.value[k])
  {
    match inputs
    case None => []
    case Some(texts) => seq(|texts|, k requires 0 <= k < |texts| => Tag(texts[k], texts[k]))
  }

  /** The hidden `inputs` field: the array of texts as an attribute value,
      which is the texts joined with commas. */
  function HiddenField(tags: seq<Tag>): string
  {
    Strings.Join(Texts(tags), ',')
  }

  /** The comma split on the server recovers the tag texts, in order, when
      there is at least one tag and no text holds a comma. */
  lemma HiddenFieldRoundTrip(tags: seq<Tag>)
    requires |tags| >= 1
    requires forall k :: 0 <= k < |tags| ==> ',' !in tags[k].text
    ensures Strings.Split(HiddenField(tags), ',') == Texts(tags)
  {
    Strings.SplitJoin(Texts(tags), ',');
  }

  /** An empty tag list is submitted as one empty input. */
  lemma NoTagsSubmitOneEmptyInput()
    ensures Strings.Split(HiddenField([]), ',') == [""]
  {
  }

  /** Tags set from the command's inputs on open are submitted as those
      inputs again. */
  lemma OpenedInputsRoundTrip(inputs: seq<string>)
    requires |inputs| >= 1
    requires forall k :: 0 <= k < |inputs| ==> ',' !in inputs[k]
    ensures Strings.Split(HiddenField(InitialTags(Some(inputs))), ',') == inputs
  {
    var tags := InitialTags(Some(inputs));
    HiddenFieldRoundTrip(tags);
    assert Texts(tags) == inputs;
  }

  /** The modal form's state: `enableAi` and `inputs`. */
  class ModalForm {
    var enableAi: Option<bool>
    var inputs: seq<Tag>

    /** `useState(props.enableAi)` and `useState<Tag[]>([])`. */
    constructor(propsEnableAi: Option<bool>)
      ensures enableAi == propsEnableAi && inputs == []
    {
      enableAi := propsEnableAi;
      inputs := [];
    }

    /** The `useEffect` on open: the AI flag defaults to false and the tags
        are reset from the command's inputs; a closed dialog is left as is. */
    method OnOpen(open: bool, propsEnableAi: Option<bool>, propsInputs: Option<seq<string>>)
      modifies this
      ensures open ==> enableAi == Some(propsEnableAi.GetOr(false))
                       && inputs == InitialTags(propsInputs)
      ensures !open ==> enableAi == old(enableAi) && inputs == old(inputs)
    {
      if open {
        enableAi := Some(propsEnableAi.GetOr(false));
        inputs := InitialTags(propsInputs);
      }
    }
  }
}
