/** Editing one string field of a JSON file in a temporary document: opening writes
    the field's text to a temporary file and remembers which field it stands for;
    saving that document writes its text back into the field. */
module JsonFieldEditor {
  import opened Base
  import opened Json
  import opened Files

  /** Which field of which JSON file a temporary document edits. */
  datatype Target = Target(jsonPath: string, field: string)

  /** The text the editor opens with: the field's value when the file holds a JSON
      object whose field is a string, otherwise the default text, or "". */
  function InitialText(stored: Stored<Json>, field: string, defaultText: Option<string>): (r: string)
    ensures (stored.Present? && Member(stored.value, field).Some? && Member(stored.value, field).value.JStr?) ==>
              r == Member(stored.value, field).value.s
    ensures !(stored.Present? && Member(stored.value, field).Some? && Member(stored.value, field).value.JStr?) ==>
              r == defaultText.GetOr("")
  {
    var current := defaultText.GetOr("");
    match stored
    case Present(j) => (match Member(j, field) case Some(JStr(v)) => v case _ => current)
    case _ => current
  }

  /** The object the save hook writes back, or `None` when it writes nothing: a
      missing or unparsable file becomes an object with only the field, an object has
      the field set in place, and any other JSON value is left as it is. */
  function Saved(stored: Stored<Json>, field: string, text: string): Option<Json> {
    match stored
    case Present(JObj(members)) => Some(JObj(Put(members, field, JStr(text))))
    case Present(_) => None
    case _ => Some(JObj([(field, JStr(text))]))
  }

  /** What a save writes holds the document's text in the field, keeps every other
      field of an existing object, and is only the field when there was no object to
      start from. */
  lemma SavedSpec(stored: Stored<Json>, field: string, text: string, other: string)
    requires Saved(stored, field, text).Some?
    ensures Member(Saved(stored, field, text).value, field) == Some(JStr(text))
    ensures other != field && stored.Present? ==>
              Member(Saved(stored, field, text).value, other) == Member(stored.value, other)
    ensures !stored.Present? ==> Saved(stored, field, text).value == JObj([(field, JStr(text))])
    ensures Saved(stored, field, text).value.JObj?
  {
    if stored.Present? {
      PutThenGet(stored.value.members, field, JStr(text));
      if other != field {
        PutKeepsOthers(stored.value.members, field, JStr(text), other);
      }
    }
  }

  /** Saving the same text twice leaves the same JSON as saving it once. */
  lemma SavedIdempotent(stored: Stored<Json>, field: string, text: string)
    requires Saved(stored, field, text).Some?
    ensures Saved(Present(Saved(stored, field, text).value), field, text) == Saved(stored, field, text)
  {
    if stored.Present? {
      PutIdempotent(stored.value.members, field, JStr(text));
    } else {
      PutIdempotent([], field, JStr(text));
    }
  }

  /** Reopening the field after a save shows the saved text. */
  lemma SaveThenOpen(stored: Stored<Json>, field: string, text: string, defaultText: Option<string>)
    requires Saved(stored, field, text).Some?
    ensures InitialText(Present(Saved(stored, field, text).value), field, defaultText) == text
  {
    SavedSpec(stored, field, text, field);
  }

  /** The registry of temporary documents (`tempTargets`) and the files it edits. */
  class Editor {
    var tempTargets: map<string, Target>
    const store: FileStore

    constructor (store: FileStore)
      ensures tempTargets == map[] && this.store == store
    {
      tempTargets := map[];
      this.store := store;
    }

    /** `openJsonFieldInTempEditor`: `tmpPath` is the fresh temporary file name, made
        from the clock and a random suffix. */
    method Open(target: Target, defaultText: Option<string>, tmpPath: string)
      modifies this, store
      ensures tempTargets == old(tempTargets)[tmpPath := target]
      ensures store.files == old(store.files)[tmpPath := Text(InitialText(ReadJson(old(store.files), target.jsonPath), target.field, defaultText))]
      ensures store.dirs == old(store.dirs)
    {
      var current := InitialText(ReadJson(store.files, target.jsonPath), target.field, defaultText);
      store.WriteFile(tmpPath, Text(current));
      tempTargets := tempTargets[tmpPath := target];
    }

    /** The save hook: a document that is not registered is ignored; otherwise the
        field is written back, unless the write fails. Registrations are never
        removed, so every later save writes again. */
    method OnSave(docName: string, text: string, writeFails: bool)
      modifies store
      ensures docName !in tempTargets ==> store.files == old(store.files)
      ensures docName in tempTargets ==>
                var t := tempTargets[docName];
                var obj := Saved(ReadJson(old(store.files), t.jsonPath), t.field, text);
                store.files == if obj.Some? && !writeFails then old(store.files)[t.jsonPath := Doc(obj.value)] else old(store.files)
      ensures store.dirs == old(store.dirs)
    {
      if docName !in tempTargets {
        return;
      }
      var t := tempTargets[docName];
      var obj := Saved(ReadJson(store.files, t.jsonPath), t.field, text);
      if obj.Some? && !writeFails {
        store.WriteFile(t.jsonPath, Doc(obj.value));
      }
    }
  }
}
