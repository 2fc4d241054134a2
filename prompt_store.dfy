/**
 * The per-user prompt document (`.../users/{uid}/vibeData/current`): the
 * merge write of VibeCodeApp.jsx:117-121 and the snapshot read of
 * VibeCodeApp.jsx:39-48. The store is a map from user id to document; a
 * document is a map from field name to value.
 */
module PromptStore {

  import opened Wrappers

  datatype DocValue = Text(s: string) | Timestamp(ms: int)

  type Doc = map<string, DocValue>

  const TextField: string := "text"
  const LastUpdatedField: string := "lastUpdated"

  /** `setDoc(ref, fields, { merge: true })`: the given fields are overwritten, every other field is kept. */
  function MergeWrite(doc: Doc, fields: Doc): (merged: Doc)
    ensures merged.Keys == doc.Keys + fields.Keys
    ensures forall k :: k in fields ==> merged[k] == fields[k]
    ensures forall k :: k in doc && k !in fields ==> merged[k] == doc[k]
  {
    doc + fields
  }

  /** `data.text || ''` on an existing document, `''` on a missing one. */
  function SnapshotText(doc: Option<Doc>): string
  {
    match doc
    case None => ""
    case Some(d) => if TextField in d && d[TextField].Text? then d[TextField].s else ""
  }

  /** The prompt save of one enhancement run, made at time `now` (`new Date()`). */
  function SavePrompt(store: map<string, Doc>, uid: string, text: string, now: int): map<string, Doc>
  {
    var fields := map[TextField := Text(text), LastUpdatedField := Timestamp(now)];
    store[uid := MergeWrite(if uid in store then store[uid] else map[], fields)]
  }

  /**
   * The save touches only the user's own document, and in it only `text` and
   * `lastUpdated`: every other field, and every other user's document, is kept.
   */
  lemma SavePromptMerges(store: map<string, Doc>, uid: string, text: string, now: int)
    ensures var saved := SavePrompt(store, uid, text, now);
      && saved.Keys == store.Keys + {uid}
      && (forall other :: other in store && other != uid ==> saved[other] == store[other])
      && saved[uid].Keys == (if uid in store then store[uid].Keys else {}) + {TextField, LastUpdatedField}
      && saved[uid][TextField] == Text(text)
      && saved[uid][LastUpdatedField] == Timestamp(now)
      && (uid in store ==> forall k :: k in store[uid] && k != TextField && k != LastUpdatedField ==> saved[uid][k] == store[uid][k])
  {
  }

  /** What is saved is what the next snapshot of that user's document loads into the prompt field. */
  lemma SavedPromptReloads(store: map<string, Doc>, uid: string, text: string, now: int)
    ensures SnapshotText(Some(SavePrompt(store, uid, text, now)[uid])) == text
  {
  }
}
