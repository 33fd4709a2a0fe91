/** The conversation context of the context-aware agent: a mutable
    preference table with an append-only interaction log, and the two tools
    that write and read it. */
module Context {
  import Text

  /** What `get_user_preferences` answers when nothing has been stored. */
  const NO_PREFERENCES: string := "まだ設定がありません。"

  /** The heading of a non-empty preference listing. */
  const HEADER: string := "現在の設定: "

  /** `order` lists the keys of `prefs` once each, in the order they were
      first inserted (the iteration order of a Python dict). */
  ghost predicate Ordered(order: seq<string>, prefs: map<string, string>) {
    && (forall i, j :: 0 <= i < j < |order| ==> order[i] != order[j])
    && (forall k :: k in prefs <==> k in order)
  }

  /** A dict with keys in insertion order has exactly as many keys as entries. */
  lemma {:induction false} OrderCountsKeys(order: seq<string>, prefs: map<string, string>)
    requires Ordered(order, prefs)
    ensures |order| == |prefs|
  {
    if order == [] {
      assert prefs.Keys == {};
    } else {
      var last := order[|order| - 1];
      var rest := order[..|order| - 1];
      var smaller := prefs - {last};
      assert smaller.Keys == prefs.Keys - {last};
      forall k ensures k in smaller <==> k in rest {
        if k in rest {
          var i :| 0 <= i < |rest| && rest[i] == k;
          assert order[i] == k && i < |order| - 1;
        }
        if k in prefs && k != last {
          var i :| 0 <= i < |order| && order[i] == k;
          assert i != |order| - 1;
        }
      }
      OrderCountsKeys(rest, smaller);
    }
  }

  class ConversationContext {
    /** `user_preferences`: preference name to value. */
    var userPreferences: map<string, string>
    /** The keys of `userPreferences` in insertion order. */
    var order: seq<string>
    /** `conversation_history`: every logged message, oldest first. */
    var conversationHistory: seq<string>

    ghost predicate Valid()
      reads this
    {
      Ordered(order, userPreferences)
    }

    /** A new context stores no preference and has logged nothing. */
    constructor ()
      ensures Valid()
      ensures userPreferences == map[] && order == [] && conversationHistory == []
    {
      userPreferences := map[];
      order := [];
      conversationHistory := [];
    }

    /** `add_preference`: stores `value` under `key`, overwriting in place an
        existing entry (which keeps its position) or appending a new key. The
        log is untouched. */
    method AddPreference(key: string, value: string)
      requires Valid()
      modifies this
      ensures Valid()
      ensures userPreferences == old(userPreferences)[key := value]
      ensures order == if key in old(userPreferences) then old(order) else old(order) + [key]
      ensures |userPreferences| == if key in old(userPreferences) then old(|userPreferences|)
                                   else old(|userPreferences|) + 1
      ensures conversationHistory == old(conversationHistory)
    {
      if key !in userPreferences {
        order := order + [key];
      }
      userPreferences := userPreferences[key := value];
    }

    /** `log_interaction`: appends `message` to the log; the preferences are untouched. */
    method LogInteraction(message: string)
      requires Valid()
      modifies this
      ensures Valid()
      ensures conversationHistory == old(conversationHistory) + [message]
      ensures |conversationHistory| == old(|conversationHistory|) + 1
      ensures userPreferences == old(userPreferences) && order == old(order)
    {
      conversationHistory := conversationHistory + [message];
    }
  }

  /** The log entry `f"{key}の設定を{value}に変更しました"`: the key, then the
      value after "の設定を", then "に変更しました". */
  function ChangeNote(key: string, value: string): (note: string)
    ensures key <= note
    ensures Text.OccursAt(note, value, |key| + 4)
    ensures Text.EndsWith(note, "に変更しました")
  {
    key + "の設定を" + value + "に変更しました"
  }

  /** The tool `set_preference`: stores the preference, logs one change note
      and answers with that note followed by a full stop. */
  method SetPreference(context: ConversationContext, preferenceKey: string, preferenceValue: string)
    returns (reply: string)
    requires context.Valid()
    modifies context
    ensures context.Valid()
    ensures context.userPreferences == old(context.userPreferences)[preferenceKey := preferenceValue]
    ensures context.order == if preferenceKey in old(context.userPreferences) then old(context.order)
                             else old(context.order) + [preferenceKey]
    ensures context.conversationHistory == old(context.conversationHistory) + [ChangeNote(preferenceKey, preferenceValue)]
    ensures reply == ChangeNote(preferenceKey, preferenceValue) + "。"
  {
    context.AddPreference(preferenceKey, preferenceValue);
    context.LogInteraction(ChangeNote(preferenceKey, preferenceValue));
    reply := ChangeNote(preferenceKey, preferenceValue) + "。";
  }

  /** `[f"{k}: {v}" for k, v in prefs.items()]`: one entry per key of
      `order`, in that order. */
  function Entries(order: seq<string>, prefs: map<string, string>): (lines: seq<string>)
    requires forall k :: k in order ==> k in prefs
    ensures |lines| == |order|
  {
    seq(|order|, i requires 0 <= i < |order| => order[i] + ": " + prefs[order[i]])
  }

  /** The entry for the i-th key starts with that key and ": " and ends with its value. */
  lemma EntryShape(order: seq<string>, prefs: map<string, string>, i: nat)
    requires (forall k :: k in order ==> k in prefs) && i < |order|
    ensures order[i] + ": " <= Entries(order, prefs)[i]
    ensures Text.EndsWith(Entries(order, prefs)[i], prefs[order[i]])
  {
    var line := Entries(order, prefs)[i];
    assert line[|line| - |prefs[order[i]]|..] == prefs[order[i]];
  }

  /** The text `get_user_preferences` builds from a preference table. */
  function Render(order: seq<string>, prefs: map<string, string>): (r: string)
    requires Ordered(order, prefs)
    ensures prefs == map[] <==> r == NO_PREFERENCES
    ensures prefs != map[] ==> HEADER <= r
  {
    if prefs == map[] then NO_PREFERENCES
    else
      var r := HEADER + Text.Join(Entries(order, prefs), ", ");
      assert r[0] != NO_PREFERENCES[0];
      r
  }

  /** Every stored preference is listed as "key: value". */
  lemma RenderListsEveryPreference(order: seq<string>, prefs: map<string, string>, key: string)
    requires Ordered(order, prefs) && key in prefs
    ensures Text.Contains(Render(order, prefs), key + ": " + prefs[key])
  {
    var i :| 0 <= i < |order| && order[i] == key;
    var lines := Entries(order, prefs);
    Text.JoinContainsPart(lines, ", ", i);
    var at: nat :| Text.OccursAt(Text.Join(lines, ", "), lines[i], at);
    Text.OccursAfterPrefix(HEADER, Text.Join(lines, ", "), lines[i], at);
  }

  /** The entry list has exactly one entry per stored preference, the i-th
      for the i-th inserted key. */
  lemma RenderOneLinePerPreference(order: seq<string>, prefs: map<string, string>)
    requires Ordered(order, prefs)
    ensures |Entries(order, prefs)| == |prefs|
    ensures forall i :: 0 <= i < |order| ==> Entries(order, prefs)[i] == order[i] + ": " + prefs[order[i]]
  {
    OrderCountsKeys(order, prefs);
  }

  /** Appending a new key to the order keeps the order in step with the table. */
  lemma OrderedAppend(order: seq<string>, prefs: map<string, string>, key: string, value: string)
    requires Ordered(order, prefs) && key !in prefs
    ensures Ordered(order + [key], prefs[key := value])
  {
    var order' := order + [key];
    forall i, j | 0 <= i < j < |order'| ensures order'[i] != order'[j] {
      if j == |order| {
        assert order[i] in prefs;
      }
    }
  }

  /** A new key's entry is appended after the existing entries, which are unchanged. */
  lemma EntriesAppend(order: seq<string>, prefs: map<string, string>, key: string, value: string)
    requires Ordered(order, prefs) && key !in prefs
    ensures Ordered(order + [key], prefs[key := value])
    ensures Entries(order + [key], prefs[key := value]) == Entries(order, prefs) + [key + ": " + value]
  {
    OrderedAppend(order, prefs, key, value);
    var longer := Entries(order + [key], prefs[key := value]);
    var shorter := Entries(order, prefs);
    forall i | 0 <= i < |order| ensures longer[i] == shorter[i] {
      assert order[i] != key;
    }
  }

  /** The first preference stored makes the listing the heading and its entry. */
  lemma RenderFirstKey(order: seq<string>, prefs: map<string, string>, key: string, value: string)
    requires Ordered(order, prefs) && key !in prefs && prefs == map[]
    ensures Ordered(order + [key], prefs[key := value])
    ensures Render(order + [key], prefs[key := value]) == HEADER + key + ": " + value
  {
    EntriesAppend(order, prefs, key, value);
    OrderCountsKeys(order, prefs);
    assert Entries(order + [key], prefs[key := value]) == [key + ": " + value];
  }

  /** A further new preference puts ", " and its entry after the earlier listing. */
  lemma RenderNextKey(order: seq<string>, prefs: map<string, string>, key: string, value: string)
    requires Ordered(order, prefs) && key !in prefs && prefs != map[]
    ensures Ordered(order + [key], prefs[key := value])
    ensures Render(order + [key], prefs[key := value]) == Render(order, prefs) + ", " + key + ": " + value
  {
    EntriesAppend(order, prefs, key, value);
    OrderCountsKeys(order, prefs);
    var line := key + ": " + value;
    var joined := Text.Join(Entries(order, prefs), ", ");
    Text.JoinSnoc(Entries(order, prefs), ", ", line);
    assert HEADER + (joined + ", " + line) == HEADER + joined + ", " + key + ": " + value;
  }

  /** Storing a new key adds its entry at the end of the listing, after a
      comma when earlier entries exist: the listing follows insertion order. */
  lemma RenderAppendsNewKey(order: seq<string>, prefs: map<string, string>, key: string, value: string)
    requires Ordered(order, prefs) && key !in prefs
    ensures Ordered(order + [key], prefs[key := value])
    ensures prefs == map[] ==> Render(order + [key], prefs[key := value]) == HEADER + key + ": " + value
    ensures prefs != map[] ==>
              Render(order + [key], prefs[key := value]) == Render(order, prefs) + ", " + key + ": " + value
  {
    if prefs == map[] {
      RenderFirstKey(order, prefs, key, value);
    } else {
      RenderNextKey(order, prefs, key, value);
    }
  }

  /** Overwriting a stored key replaces its entry where it stands: every
      other entry keeps its text and its place. */
  lemma RenderOverwritesInPlace(order: seq<string>, prefs: map<string, string>, key: string, value: string, i: nat)
    requires Ordered(order, prefs) && i < |order| && order[i] == key
    ensures Ordered(order, prefs[key := value])
    ensures Entries(order, prefs[key := value]) == Entries(order, prefs)[i := key + ": " + value]
    ensures Render(order, prefs[key := value])
            == HEADER + Text.Join(Entries(order, prefs)[i := key + ": " + value], ", ")
  {
    var prefs' := prefs[key := value];
    assert Ordered(order, prefs');
    forall j | 0 <= j < |order| && j != i
      ensures Entries(order, prefs')[j] == Entries(order, prefs)[j]
    {
      assert order[j] != key;
    }
  }

  /** The tool `get_user_preferences`: reads the context and changes nothing. */
  function GetUserPreferences(context: ConversationContext): (r: string)
    reads context
    requires context.Valid()
    ensures context.userPreferences == map[] <==> r == NO_PREFERENCES
    ensures forall key :: key in context.userPreferences ==>
              Text.Contains(r, key + ": " + context.userPreferences[key])
  {
    var r := Render(context.order, context.userPreferences);
    forall key | key in context.userPreferences
      ensures Text.Contains(r, key + ": " + context.userPreferences[key])
    {
      RenderListsEveryPreference(context.order, context.userPreferences, key);
    }
    r
  }

  /** The two turns of the context script: the first stores
      temperature_unit = F, the second lists the preferences (twice, to show
      that reading changes nothing). */
  method RememberAcrossTurns() returns (confirmation: string, listing: string, again: string)
    ensures confirmation == "temperature_unitの設定をFに変更しました。"
    ensures listing == HEADER + "temperature_unit: F"
    ensures again == listing
  {
    var context := new ConversationContext();
    assert GetUserPreferences(context) == NO_PREFERENCES;
    confirmation := SetPreference(context, "temperature_unit", "F");
    assert ChangeNote("temperature_unit", "F") + "。" == "temperature_unitの設定をFに変更しました。";
    RenderFirstKey([], map[], "temperature_unit", "F");
    assert context.order == [] + ["temperature_unit"];
    assert context.userPreferences == map[]["temperature_unit" := "F"];
    assert "temperature_unit" + ": " + "F" == "temperature_unit: F";
    listing := GetUserPreferences(context);
    again := GetUserPreferences(context);
  }
}
