/**
 Code completion for Go: which trigger a cursor position raises, how the
 language object chooses between an ordinary trigger and a "names" trigger
 (remembering the type of the last trigger it returned), and how the entries
 gocode reports become completions or a calltip.

 The editor and the helpers the language object inherits are parameters:
 an `Editor` gives the style at a position, the run of same-style text before
 a position, the inherited `preceding_trg_from_pos` and the inherited
 `trg_from_pos` (called with `implicit=False`). Running gocode and decoding
 its JSON reply is the parameter `gocode(path, pos)`.
 */
module GoCompletion {
  import opened Optional
  import opened PyText

  // ---- Triggers ----

  datatype TriggerForm = Completion | Calltip

  datatype Trigger = Trigger(lang: string, form: TriggerForm, kind: string, pos: int, implicit: bool)

  const ObjectMembers := "object-members"
  const CallSignature := "call-signature"
  const AnyKind := "any"
  const NamesKind := "names"

  /**
   `GoBuffer.trg_from_pos`: no trigger before position 2; otherwise the
   character before `pos` decides between member completion after '.', a
   calltip after '(' and any completion elsewhere.
   */
  function TrgFromPos(pos: int, implicit: bool, charAt: int -> char): (r: Option<Trigger>)
    ensures r.None? <==> pos < 2
    ensures r.Some? ==> r.value.lang == "Go" && r.value.pos == pos && r.value.implicit == implicit
    ensures r.Some? ==> r.value.kind in {ObjectMembers, CallSignature, AnyKind}
  {
    if pos < 2 then None
    else
      var lastChar := charAt(pos - 1);
      if lastChar == '.' then Some(Trigger("Go", Completion, ObjectMembers, pos, implicit))
      else if lastChar == '(' then Some(Trigger("Go", Calltip, CallSignature, pos, implicit))
      else Some(Trigger("Go", Completion, AnyKind, pos, implicit))
  }

  /** The kind and form of a buffer trigger follow the character before the position. */
  lemma TrgFromPosKind(pos: int, implicit: bool, charAt: int -> char)
    requires pos >= 2
    ensures TrgFromPos(pos, implicit, charAt).value.kind == ObjectMembers <==> charAt(pos - 1) == '.'
    ensures TrgFromPos(pos, implicit, charAt).value.kind == CallSignature <==> charAt(pos - 1) == '('
    ensures TrgFromPos(pos, implicit, charAt).value.form == Calltip <==> charAt(pos - 1) == '('
  {
  }

  /** The editor state and inherited helpers the trigger choice consults. */
  datatype Editor = Editor(
    styleAt: int -> int,
    /** From a position and its style: where the preceding run of that style starts, and its style (None when there is none). */
    precedingRun: (int, int) -> (int, Option<int>),
    /** The inherited `preceding_trg_from_pos(pos, curr_pos)`. */
    precedingTrg: (int, int) -> Option<Trigger>,
    /** The inherited `trg_from_pos(pos, implicit=False)`. */
    trgFromPos: int -> Option<Trigger>)

  /** The position whose style is examined: the character left of the cursor when `pos` is the cursor. */
  function ExaminedPos(pos: int, currPos: int): int {
    if pos == currPos then pos - 1 else pos
  }

  /**
   The "names" trigger: only for positions past 0 in style 1 or 2, when the
   preceding run is known and more than three characters back; it is the
   trigger at four characters past the run's start.
   */
  function NamesTrigger(pos: int, currPos: int, editor: Editor): (r: Option<Trigger>)
    ensures var p := ExaminedPos(pos, currPos);
      var style := editor.styleAt(p);
      var (prevPos, prevStyle) := editor.precedingRun(p, style);
      var asked := pos > 0 && (style == 1 || style == 2) && prevStyle.Some? && p - prevPos > 3;
      && (asked ==> r == editor.trgFromPos(prevPos + 4))
      && (!asked ==> r.None?)
  {
    if pos <= 0 then None
    else
      var p := ExaminedPos(pos, currPos);
      var style := editor.styleAt(p);
      if style != 1 && style != 2 then None
      else
        var (prevPos, prevStyle) := editor.precedingRun(p, style);
        if prevStyle.Some? && p - prevPos > 3 then editor.trgFromPos(prevPos + 4) else None
  }

  /**
   With the buffer's own trigger function, a names trigger is explicit and
   lies at least four characters past the preceding run, and never past the
   examined position.
   */
  lemma NamesTriggerPlacement(pos: int, currPos: int, editor: Editor, charAt: int -> char)
    requires forall q :: editor.trgFromPos(q) == TrgFromPos(q, false, charAt)
    ensures NamesTrigger(pos, currPos, editor).Some? ==>
      var p := ExaminedPos(pos, currPos);
      var t := NamesTrigger(pos, currPos, editor).value;
      && pos > 0
      && editor.styleAt(p) in {1, 2}
      && editor.precedingRun(p, editor.styleAt(p)).1.Some?
      && t.pos == editor.precedingRun(p, editor.styleAt(p)).0 + 4
      && t.pos <= p
      && !t.implicit
  {
  }

  /** The ordinary trigger, asked two characters further on after a names trigger. */
  function OrdinaryTrigger(pos: int, currPos: int, lastTrgType: Option<string>, editor: Editor): Option<Trigger> {
    if pos != currPos && lastTrgType == Some(NamesKind) then editor.precedingTrg(pos + 2, currPos)
    else editor.precedingTrg(pos, currPos)
  }

  /**
   The choice between the ordinary trigger and the names trigger: the chosen
   trigger is one of the two, there is one whenever either exists, and it is
   the rightmost; on a tie the names trigger is taken exactly when the last
   trigger was not a names trigger.
   */
  function ChooseTrigger(trg: Option<Trigger>, names: Option<Trigger>, lastTrgType: Option<string>): (r: Option<Trigger>)
    ensures r.Some? <==> trg.Some? || names.Some?
    ensures r == trg || r == names
    ensures r.Some? && trg.Some? ==> r.value.pos >= trg.value.pos
    ensures r.Some? && names.Some? ==> r.value.pos >= names.value.pos
    ensures trg.Some? && names.Some? && trg.value.pos == names.value.pos ==>
      (r == names <==> lastTrgType != Some(NamesKind) || trg == names)
  {
    if names.None? then trg
    else if trg.None? then names
    else if trg.value.pos == names.value.pos then
      if lastTrgType != Some(NamesKind) then names else trg
    else if trg.value.pos < names.value.pos then names
    else trg
  }

  /**
   `preceding_trg_from_pos`: no trigger without gocode, else the rightmost of
   the ordinary and the names trigger, and one whenever either exists.
   */
  function PrecedingTrigger(gocodePresent: bool, lastTrgType: Option<string>, pos: int, currPos: int,
                            editor: Editor): (r: Option<Trigger>)
    ensures !gocodePresent ==> r.None?
    ensures gocodePresent ==>
      var trg, names := OrdinaryTrigger(pos, currPos, lastTrgType, editor), NamesTrigger(pos, currPos, editor);
      && (r.Some? <==> trg.Some? || names.Some?)
      && (r == trg || r == names)
      && (r.Some? && trg.Some? ==> r.value.pos >= trg.value.pos)
      && (r.Some? && names.Some? ==> r.value.pos >= names.value.pos)
  {
    if !gocodePresent then None
    else ChooseTrigger(OrdinaryTrigger(pos, currPos, lastTrgType, editor), NamesTrigger(pos, currPos, editor), lastTrgType)
  }

  /** The last trigger type a call leaves: the returned trigger's type, or the old one when none is returned. */
  function NextTrgType(lastTrgType: Option<string>, trg: Option<Trigger>): Option<string> {
    if trg.Some? then Some(trg.value.kind) else lastTrgType
  }

  /** Whether every trigger the editor's helpers produce is of a kind other than "names". */
  ghost predicate NoNamesKind(editor: Editor) {
    && (forall p, c :: editor.precedingTrg(p, c).Some? ==> editor.precedingTrg(p, c).value.kind != NamesKind)
    && (forall q :: editor.trgFromPos(q).Some? ==> editor.trgFromPos(q).value.kind != NamesKind)
  }

  /**
   The "names" type is only ever remembered if a helper produces a trigger of
   that type: with the buffer's triggers (object-members, call-signature,
   any) the last type never becomes "names", so the pos + 2 retry and the
   tie-break on a previous names trigger are never taken.
   */
  lemma NamesNeverRemembered(gocodePresent: bool, lastTrgType: Option<string>, pos: int, currPos: int, editor: Editor)
    requires NoNamesKind(editor)
    requires lastTrgType != Some(NamesKind)
    ensures NextTrgType(lastTrgType, PrecedingTrigger(gocodePresent, lastTrgType, pos, currPos, editor)) != Some(NamesKind)
  {
    var trg := PrecedingTrigger(gocodePresent, lastTrgType, pos, currPos, editor);
    if trg.Some? {
      var ordinary := OrdinaryTrigger(pos, currPos, lastTrgType, editor);
      var names := NamesTrigger(pos, currPos, editor);
      if trg == names {
        var p := ExaminedPos(pos, currPos);
        var prevPos := editor.precedingRun(p, editor.styleAt(p)).0;
        assert names == editor.trgFromPos(prevPos + 4);
      } else {
        assert ordinary == editor.precedingTrg(pos, currPos);
      }
    }
  }

  /**
   When the inherited helpers find their triggers with the buffer's trigger
   function, no trigger is of the "names" kind.
   */
  lemma BufferTriggersAreNotNames(charAt: int -> char, editor: Editor)
    requires forall q :: editor.trgFromPos(q) == TrgFromPos(q, false, charAt)
    requires forall p, c :: editor.precedingTrg(p, c).Some? ==>
      editor.precedingTrg(p, c) == editor.trgFromPos(editor.precedingTrg(p, c).value.pos)
    ensures NoNamesKind(editor)
  {
    forall q | editor.trgFromPos(q).Some? ensures editor.trgFromPos(q).value.kind != NamesKind {
      assert editor.trgFromPos(q) == TrgFromPos(q, false, charAt);
    }
    forall p, c | editor.precedingTrg(p, c).Some? ensures editor.precedingTrg(p, c).value.kind != NamesKind {
      var q := editor.precedingTrg(p, c).value.pos;
      assert editor.precedingTrg(p, c) == TrgFromPos(q, false, charAt);
    }
  }

  // ---- gocode's reply ----

  /** One gocode entry: its class, name and type. */
  datatype Entry = Entry(cls: string, name: string, typ: string)

  /** `completion_name_mapping`. */
  function MappedClass(cls: string): Option<string> {
    if cls == "var" then Some("variable")
    else if cls == "func" then Some("function")
    else if cls == "package" then Some("module")
    else if cls == "type" then Some("class")
    else if cls == "const" then Some("constant")
    else None
  }

  /**
   `codeintel_type_from_completion_data`: a slice type is "@variable", else
   a map type is "%variable", else the mapped class, else the class itself.
   */
  function CompletionType(entry: Entry): (t: string)
    ensures StartsWith(entry.typ, "[]") ==> t == "@variable"
    ensures !StartsWith(entry.typ, "[]") && StartsWith(entry.typ, "map[") ==> t == "%variable"
  {
    var mapped := match MappedClass(entry.cls) case Some(name) => name case None => entry.cls;
    if StartsWith(entry.typ, "[]") then "@variable"
    else if StartsWith(entry.typ, "map[") then "%variable"
    else mapped
  }

  /**
   For other types the class decides: the five Go declaration classes are
   renamed and any other class passes through unchanged.
   */
  lemma CompletionTypeOfClass(entry: Entry)
    requires !StartsWith(entry.typ, "[]") && !StartsWith(entry.typ, "map[")
    ensures entry.cls == "var" ==> CompletionType(entry) == "variable"
    ensures entry.cls == "func" ==> CompletionType(entry) == "function"
    ensures entry.cls == "package" ==> CompletionType(entry) == "module"
    ensures entry.cls == "type" ==> CompletionType(entry) == "class"
    ensures entry.cls == "const" ==> CompletionType(entry) == "constant"
    ensures entry.cls !in {"var", "func", "package", "type", "const"} ==> CompletionType(entry) == entry.cls
  {
  }

  /** A slice of maps is a slice: the slice check comes first. */
  lemma SliceWinsOverMap(cls: string, elem: string)
    ensures CompletionType(Entry(cls, "x", "[]map[" + elem)) == "@variable"
  {
    assert ("[]map[" + elem)[..2] == "[]";
  }

  /** The entry kept by the PANIC filter, if it is kept. */
  function KeepNonPanic(entry: Entry): Option<Entry> {
    if entry.cls != "PANIC" then Some(entry) else None
  }

  /** The entries without the PANIC ones, in their order. */
  function DropPanic(entries: seq<Entry>): seq<Entry> {
    FilterMap(KeepNonPanic, entries)
  }

  /** Exactly the entries whose class is not PANIC remain. */
  lemma DropPanicMembers(entries: seq<Entry>)
    ensures forall e :: e in DropPanic(entries) <==> e in entries && e.cls != "PANIC"
  {
    FilterMapMembers(KeepNonPanic, entries);
    forall e | e in entries && e.cls != "PANIC" ensures e in DropPanic(entries) {
      var i :| 0 <= i < |entries| && entries[i] == e;
      assert KeepNonPanic(entries[i]).Some?;
    }
  }

  /** Dropping PANIC entries keeps order: the entries of a concatenation concatenate. */
  lemma DropPanicAppend(xs: seq<Entry>, ys: seq<Entry>)
    ensures DropPanic(xs + ys) == DropPanic(xs) + DropPanic(ys)
  {
    FilterMapAppend(KeepNonPanic, xs, ys);
  }

  /** Without PANIC entries nothing is dropped. */
  lemma {:induction false} DropPanicNone(entries: seq<Entry>)
    requires forall i :: 0 <= i < |entries| ==> entries[i].cls != "PANIC"
    ensures DropPanic(entries) == entries
  {
    if entries != [] {
      DropPanicNone(entries[1..]);
      assert entries == [entries[0]] + entries[1..];
    }
  }

  /** The completion list: one (type, name) pair per entry, in order. */
  function Completions(entries: seq<Entry>): (cplns: seq<(string, string)>)
    ensures |cplns| == |entries|
    ensures forall i :: 0 <= i < |entries| ==> cplns[i] == (CompletionType(entries[i]), entries[i].name)
  {
    seq(|entries|, i requires 0 <= i < |entries| => (CompletionType(entries[i]), entries[i].name))
  }

  /** What decoding gocode's JSON reply gave: no JSON, a list too short to hold entries, or the entries. */
  datatype GocodeReply = NotJson | TooShort | Entries(entries: seq<Entry>)

  /**
   What evaluating a trigger does with the completion controller: nothing,
   only `start`, or `start` followed by completions or calltips and `done`;
   a calltip request with no entry left raises IndexError after `start`.
   */
  datatype EvalOutcome =
    | NotStarted
    | StartedOnly
    | CompletionsDone(cplns: seq<(string, string)>)
    | CalltipsDone(calltips: seq<string>)
    | CalltipIndexError

  /** The position gocode is asked about: one back for a calltip, so it sees the name before '('. */
  function QueryPos(trg: Trigger): (pos: int)
    ensures trg.kind == CallSignature ==> pos == trg.pos - 1
    ensures trg.kind != CallSignature ==> pos == trg.pos
  {
    if trg.kind == CallSignature then trg.pos - 1 else trg.pos
  }

  /**
   `async_eval_at_trg`: without gocode or a usable reply nothing starts;
   member completion and explicit any completion list completions, a
   calltip trigger shows one calltip or raises, and anything else only
   starts the controller.
   */
  function EvalAtTrg(gocodePresent: bool, trg: Trigger, path: string, gocode: (string, int) -> GocodeReply): (o: EvalOutcome)
    ensures o == NotStarted <==> !gocodePresent || !gocode(path, QueryPos(trg)).Entries?
    ensures o.CompletionsDone? <==> o != NotStarted && (trg.kind == ObjectMembers || (trg.kind == AnyKind && !trg.implicit))
    ensures o.CalltipsDone? || o == CalltipIndexError <==> o != NotStarted && trg.kind == CallSignature
    ensures o.CalltipsDone? ==> |o.calltips| == 1
  {
    if !gocodePresent then NotStarted
    else
      match gocode(path, QueryPos(trg))
      case NotJson => NotStarted
      case TooShort => NotStarted
      case Entries(data) =>
        var entries := DropPanic(data);
        if trg.kind == ObjectMembers then CompletionsDone(Completions(entries))
        else if trg.kind == CallSignature then
          if entries == [] then CalltipIndexError
          else CalltipsDone([entries[0].name + " " + entries[0].typ])
        else if trg.kind == AnyKind && !trg.implicit then CompletionsDone(Completions(entries))
        else StartedOnly
  }

  /**
   Member completion and explicit any completion list exactly one completion
   per non-PANIC entry, in order, and no PANIC entry; each is the entry's
   completion type and its name.
   */
  lemma CompletionPerEntry(gocodePresent: bool, trg: Trigger, path: string, gocode: (string, int) -> GocodeReply)
    requires gocodePresent && gocode(path, trg.pos).Entries?
    requires trg.kind == ObjectMembers || (trg.kind == AnyKind && !trg.implicit)
    ensures
      var entries := DropPanic(gocode(path, trg.pos).entries);
      var outcome := EvalAtTrg(gocodePresent, trg, path, gocode);
      && outcome.CompletionsDone?
      && |outcome.cplns| == |entries|
      && (forall i :: 0 <= i < |entries| ==>
            outcome.cplns[i] == (CompletionType(entries[i]), entries[i].name) && entries[i].cls != "PANIC")
      && (forall e :: e in entries <==> e in gocode(path, trg.pos).entries && e.cls != "PANIC")
  {
    var entries := DropPanic(gocode(path, trg.pos).entries);
    DropPanicMembers(gocode(path, trg.pos).entries);
    forall i | 0 <= i < |entries| ensures entries[i].cls != "PANIC" {
      assert entries[i] in entries;
    }
  }

  /** An implicit any trigger starts the controller but completes nothing. */
  lemma ImplicitAnyCompletesNothing(trg: Trigger, path: string, gocode: (string, int) -> GocodeReply)
    requires trg.kind == AnyKind && trg.implicit
    ensures EvalAtTrg(true, trg, path, gocode) in {NotStarted, StartedOnly}
    ensures gocode(path, trg.pos).Entries? ==> EvalAtTrg(true, trg, path, gocode) == StartedOnly
  {
  }

  /**
   A calltip asks gocode one position back and shows "<name> <type>" of the
   first entry left after dropping PANIC entries.
   */
  lemma CalltipOfFirstEntry(trg: Trigger, path: string, gocode: (string, int) -> GocodeReply)
    requires trg.kind == CallSignature && gocode(path, trg.pos - 1).Entries?
    ensures
      var entries := DropPanic(gocode(path, trg.pos - 1).entries);
      && (entries == [] <==> EvalAtTrg(true, trg, path, gocode) == CalltipIndexError)
      && (entries != [] ==>
            EvalAtTrg(true, trg, path, gocode) == CalltipsDone([entries[0].name + " " + entries[0].typ]))
  {
  }

  // ---- The language object ----

  class GoLangIntel {
    /** Whether gocode could be started when the object was created. */
    const gocodePresent: bool
    /** The type of the last trigger returned, if any. */
    var lastTrgType: Option<string>

    constructor (gocodePresent: bool)
      ensures this.gocodePresent == gocodePresent && lastTrgType.None?
    {
      this.gocodePresent := gocodePresent;
      lastTrgType := None;
    }

    /**
     `preceding_trg_from_pos`: the trigger to offer, which also becomes the
     remembered last trigger type; with no trigger the memory is unchanged.
     */
    method PrecedingTrgFromPos(pos: int, currPos: int, editor: Editor) returns (trg: Option<Trigger>)
      modifies this
      ensures trg == PrecedingTrigger(gocodePresent, old(lastTrgType), pos, currPos, editor)
      ensures lastTrgType == NextTrgType(old(lastTrgType), trg)
    {
      if !gocodePresent {
        return None;
      }
      if pos != currPos && lastTrgType == Some(NamesKind) {
        trg := editor.precedingTrg(pos + 2, currPos);
      } else {
        trg := editor.precedingTrg(pos, currPos);
      }
      var namesTrigger: Option<Trigger> := None;
      var p := pos;
      if p > 0 {
        if p == currPos {
          p := p - 1;
        }
        var style := editor.styleAt(p);
        if style == 1 || style == 2 {
          var (prevPos, prevStyle) := editor.precedingRun(p, style);
          if prevStyle.Some? && p - prevPos > 3 {
            namesTrigger := editor.trgFromPos(prevPos + 4);
          }
        }
      }
      if namesTrigger.Some? {
        if trg.None? {
          trg := namesTrigger;
        } else if trg.value.pos == namesTrigger.value.pos {
          if lastTrgType != Some(NamesKind) {
            trg := namesTrigger;
          }
        } else if trg.value.pos < namesTrigger.value.pos {
          trg := namesTrigger;
        }
      }
      if trg.Some? {
        lastTrgType := Some(trg.value.kind);
      }
    }
  }
}
