/**
 * The saved-prompt store: the record built by "Save Prompt", the delete
 * filter of the workspace grid and the preview shown for each record.
 */
module Workspace {
  import opened Text

  /** One entry of `saved_prompts`; the id and the creation time are supplied by the caller. */
  datatype SavedPrompt = SavedPrompt(
    id: string,
    name: string,
    prompt: string,
    created: string,
    goal: string,
    persona: string,
    tone: string,
    format: string)

  const NameLimit: nat := 50
  const PreviewLimit: nat := 200

  /** The display name: the goal, cut to its first 50 characters plus "..." when longer. */
  function DisplayName(goal: string): (name: string)
    ensures |goal| <= NameLimit ==> name == goal
    ensures |goal| > NameLimit ==> |name| == NameLimit + 3
                                   && name[..NameLimit] == goal[..NameLimit]
                                   && name[NameLimit..] == "..."
  {
    Truncated(goal, NameLimit)
  }

  /** The record "Save Prompt" appends, with a fresh id and timestamp passed in. */
  function NewRecord(
    id: string, created: string, goal: string, prompt: string,
    persona: string, tone: string, format: string): (r: SavedPrompt)
    ensures r.id == id && r.created == created && r.prompt == prompt
    ensures r.goal == goal && r.persona == persona && r.tone == tone && r.format == format
    ensures |goal| > NameLimit ==> |r.name| == NameLimit + 3
                                   && r.name[..NameLimit] == goal[..NameLimit]
                                   && r.name[NameLimit..] == "..."
    ensures |goal| <= NameLimit ==> r.name == goal
  {
    SavedPrompt(id, DisplayName(goal), prompt, created, goal, persona, tone, format)
  }

  /** The text shown in a record's preview: at most 200 characters of the prompt plus "...". */
  function PreviewText(prompt: string): (text: string)
    ensures |prompt| <= PreviewLimit ==> text == prompt
    ensures |prompt| > PreviewLimit ==> |text| == PreviewLimit + 3
                                        && text[..PreviewLimit] == prompt[..PreviewLimit]
                                        && text[PreviewLimit..] == "..."
  {
    Truncated(prompt, PreviewLimit)
  }

  predicate HasId(records: seq<SavedPrompt>, id: string) {
    exists i :: 0 <= i < |records| && records[i].id == id
  }

  /** `[p for p in records if p['id'] != id]`: drops every record carrying the id. */
  function RemoveById(records: seq<SavedPrompt>, id: string): (kept: seq<SavedPrompt>)
    ensures |kept| <= |records|
    ensures forall i :: 0 <= i < |kept| ==> kept[i].id != id
    ensures forall p :: p in kept <==> p in records && p.id != id
  {
    if records == [] then []
    else if records[0].id == id then RemoveById(records[1..], id)
    else [records[0]] + RemoveById(records[1..], id)
  }

  /** The filter distributes over concatenation, so the kept records stay in their order. */
  lemma {:induction false} RemoveByIdAppend(a: seq<SavedPrompt>, b: seq<SavedPrompt>, id: string)
    ensures RemoveById(a + b, id) == RemoveById(a, id) + RemoveById(b, id)
  {
    if a == [] {
      assert a + b == b;
    } else {
      assert (a + b)[1..] == a[1..] + b;
      RemoveByIdAppend(a[1..], b, id);
    }
  }

  /** Deleting an id that no record carries leaves the list exactly as it was. */
  lemma {:induction false} RemoveAbsentIsIdentity(records: seq<SavedPrompt>, id: string)
    requires !HasId(records, id)
    ensures RemoveById(records, id) == records
  {
    if records != [] {
      assert records[0].id != id;
      assert !HasId(records[1..], id) by {
        forall i | 0 <= i < |records[1..]|
          ensures records[1..][i].id != id
        {
          assert records[1..][i] == records[i + 1];
        }
      }
      RemoveAbsentIsIdentity(records[1..], id);
      assert records == [records[0]] + records[1..];
    }
  }

  /** Deleting removes at least one record exactly when some record carries the id. */
  lemma {:induction false} RemoveShrinksIff(records: seq<SavedPrompt>, id: string)
    ensures |RemoveById(records, id)| < |records| <==> HasId(records, id)
  {
    if HasId(records, id) {
      var i :| 0 <= i < |records| && records[i].id == id;
      assert records[i] in records && records[i] !in RemoveById(records, id);
      if |RemoveById(records, id)| == |records| {
        RemoveAllKept(records, id);
        assert false;
      }
    } else {
      RemoveAbsentIsIdentity(records, id);
    }
  }

  /** A filter that keeps as many records as it was given has kept all of them. */
  lemma {:induction false} RemoveAllKept(records: seq<SavedPrompt>, id: string)
    requires |RemoveById(records, id)| == |records|
    ensures RemoveById(records, id) == records
  {
    if records != [] {
      if records[0].id == id {
        assert false;
      } else {
        RemoveAllKept(records[1..], id);
        assert records == [records[0]] + records[1..];
      }
    }
  }

  /** Appending a record with a fresh id and then deleting that id gives back the old list. */
  lemma DeleteUndoesSave(records: seq<SavedPrompt>, r: SavedPrompt)
    requires !HasId(records, r.id)
    ensures RemoveById(records + [r], r.id) == records
  {
    RemoveByIdAppend(records, [r], r.id);
    RemoveAbsentIsIdentity(records, r.id);
    assert RemoveById([r], r.id) == RemoveById([], r.id) == [];
  }

  predicate UniqueIds(records: seq<SavedPrompt>) {
    forall i, j :: 0 <= i < j < |records| ==> records[i].id != records[j].id
  }

  /** When ids are unique, a delete removes at most one record. */
  lemma {:induction false} UniqueIdsRemoveAtMostOne(records: seq<SavedPrompt>, id: string)
    requires UniqueIds(records)
    ensures |RemoveById(records, id)| >= |records| - 1
  {
    if records != [] {
      assert UniqueIds(records[1..]) by {
        forall i, j | 0 <= i < j < |records[1..]|
          ensures records[1..][i].id != records[1..][j].id
        {
          assert records[1..][i] == records[i + 1] && records[1..][j] == records[j + 1];
        }
      }
      if records[0].id == id {
        assert !HasId(records[1..], id) by {
          forall i | 0 <= i < |records[1..]|
            ensures records[1..][i].id != id
          {
            assert records[1..][i] == records[i + 1];
          }
        }
        RemoveAbsentIsIdentity(records[1..], id);
      } else {
        UniqueIdsRemoveAtMostOne(records[1..], id);
      }
    }
  }

  /** Dropping the first record keeps ids unique. */
  lemma UniqueIdsTail(records: seq<SavedPrompt>)
    requires records != [] && UniqueIds(records)
    ensures UniqueIds(records[1..])
    ensures forall p :: p in records[1..] ==> p.id != records[0].id
  {
    var rest := records[1..];
    forall i, j | 0 <= i < j < |rest|
      ensures rest[i].id != rest[j].id
    {
      assert rest[i] == records[i + 1] && rest[j] == records[j + 1];
    }
    forall p | p in rest
      ensures p.id != records[0].id
    {
      var k :| 0 <= k < |rest| && rest[k] == p;
      assert rest[k] == records[k + 1];
    }
  }

  /** A record whose id no other record carries can lead a list of unique ids. */
  lemma ConsUniqueIds(head: SavedPrompt, tail: seq<SavedPrompt>)
    requires UniqueIds(tail) && forall p :: p in tail ==> p.id != head.id
    ensures UniqueIds([head] + tail)
  {
    var all := [head] + tail;
    forall i, j | 0 <= i < j < |all|
      ensures all[i].id != all[j].id
    {
      assert all[j] == tail[j - 1];
      if i > 0 {
        assert all[i] == tail[i - 1];
      }
    }
  }

  /** The filter keeps ids unique: it only drops records. */
  lemma {:induction false} RemoveKeepsUniqueIds(records: seq<SavedPrompt>, id: string)
    requires UniqueIds(records)
    ensures UniqueIds(RemoveById(records, id))
  {
    if records != [] {
      UniqueIdsTail(records);
      RemoveKeepsUniqueIds(records[1..], id);
      if records[0].id != id {
        ConsUniqueIds(records[0], RemoveById(records[1..], id));
      }
    }
  }
}
