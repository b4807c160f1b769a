/** SCIM PATCH operations on the role extension: what the server does with them. */
module Patch {
  import opened Text
  import opened Domain

  datatype Json =
    | Null
    | Bool(b: bool)
    | Number(literal: string)
    | String(s: string)
    | Array(items: seq<Json>)
    | Object(members: map<string, Json>)

  /** `value` is None when the operation carries no value at all. */
  datatype PatchOp = PatchOp(op: string, path: string, value: Option<Json>)

  /** What is left in the extension, and whether the operation reported an error. */
  datatype Outcome = Outcome(ext: Option<string>, ok: bool)

  // ---------- Decoding, as encoding/json does it: null leaves the target at its zero value ----------

  function DecodeString(v: Option<Json>): Option<string> {
    match v
    case Some(String(s)) => Some(s)
    case Some(Null) => Some("")
    case _ => None
  }

  /** Into a struct with the one field `role`. */
  function DecodeExtension(v: Json): Option<string> {
    match v
    case Object(members) => if "role" in members then DecodeString(Some(members["role"])) else Some("")
    case Null => Some("")
    case _ => None
  }

  /** Into a map from namespace to raw value. */
  function DecodeObject(v: Option<Json>): Option<map<string, Json>> {
    match v
    case Some(Object(members)) => Some(members)
    case Some(Null) => Some(map[])
    case _ => None
  }

  // ---------- The operations, branch by branch ----------

  function SetRole(ext: Option<string>, role: string): Outcome {
    if KnownRole(role) then Outcome(Some(role), true) else Outcome(ext, false)
  }

  /** One namespace of the object form. */
  function ApplyMember(ext: Option<string>, key: string, raw: Json): Outcome {
    if key != SCHEMA_NOTION_USER then Outcome(ext, false)
    else
      match DecodeExtension(raw)
      case None => Outcome(ext, false)
      case Some(role) => SetRole(ext, role)
  }

  /** The object form, ranging over the map in the given order. */
  function ApplyMembers(ext: Option<string>, members: map<string, Json>, order: seq<string>): Outcome
    requires forall k :: k in order ==> k in members
    decreases order
  {
    if order == [] then Outcome(ext, true)
    else
      var first := ApplyMember(ext, order[0], members[order[0]]);
      if !first.ok then first else ApplyMembers(first.ext, members, order[1..])
  }

  predicate IsRoleWrite(op: string) {
    LowerAscii(op) == "replace" || LowerAscii(op) == "add"
  }

  predicate IsRolePath(path: string) {
    path == SCHEMA_NOTION_USER + ":role" || path == "role"
  }

  /** An order in which the server's range over the operation's object may go. */
  ghost predicate IsRangeOrder(op: PatchOp, order: seq<string>) {
    match DecodeObject(op.value)
    case None => true
    case Some(members) => IsOrderOf(members.Keys, order)
  }

  ghost predicate IsOrderOf(keys: set<string>, order: seq<string>) {
    && (forall k :: k in order <==> k in keys)
    && (forall i, j :: 0 <= i < j < |order| ==> order[i] != order[j])
  }

  ghost function ApplyOp(ext: Option<string>, op: PatchOp, order: seq<string>): Outcome
    requires IsRangeOrder(op, order)
  {
    if !IsRoleWrite(op.op) then Outcome(ext, false)
    else if op.path != "" then
      if IsRolePath(op.path) then
        match DecodeString(op.value)
        case None => Outcome(ext, false)
        case Some(role) => SetRole(ext, role)
      else Outcome(ext, false)
    else
      match DecodeObject(op.value)
      case None => Outcome(ext, false)
      case Some(members) => ApplyMembers(ext, members, order)
  }

  ghost predicate AreRangeOrders(ops: seq<PatchOp>, orders: seq<seq<string>>) {
    |orders| == |ops| && forall i :: 0 <= i < |ops| ==> IsRangeOrder(ops[i], orders[i])
  }

  /** The handler's loop: stop at the first operation that fails, undo nothing. */
  ghost function ApplyOps(ext: Option<string>, ops: seq<PatchOp>, orders: seq<seq<string>>): Outcome
    requires AreRangeOrders(ops, orders)
    decreases ops
  {
    if ops == [] then Outcome(ext, true)
    else
      var first := ApplyOp(ext, ops[0], orders[0]);
      if !first.ok then first else ApplyOps(first.ext, ops[1..], orders[1..])
  }

  // ---------- The same operations described by their effect ----------

  datatype Effect = Fails | Keeps | Sets(role: string)

  /** What the object form means when no namespace but Notion's is in it. */
  function ObjectEffect(members: map<string, Json>): Effect {
    if members == map[] then Keeps
    else if members.Keys == {SCHEMA_NOTION_USER} then NotionEffect(members)
    else Fails
  }

  /** What the Notion namespace of an object asks for, whatever stands beside it. */
  function NotionEffect(members: map<string, Json>): Effect {
    if SCHEMA_NOTION_USER !in members then Fails
    else
      match DecodeExtension(members[SCHEMA_NOTION_USER])
      case None => Fails
      case Some(role) => if KnownRole(role) then Sets(role) else Fails
  }

  function EffectOf(op: PatchOp): Effect {
    if !IsRoleWrite(op.op) then Fails
    else if op.path != "" then
      match DecodeString(op.value)
      case None => Fails
      case Some(role) => if IsRolePath(op.path) && KnownRole(role) then Sets(role) else Fails
    else
      match DecodeObject(op.value)
      case None => Fails
      case Some(members) => ObjectEffect(members)
  }

  function After(e: Effect, ext: Option<string>): Option<string> {
    if e.Sets? then Some(e.role) else ext
  }

  /** The role a failing operation may still have written: a valid Notion entry in the object form
      beside some other namespace. */
  function StrayWrite(op: PatchOp): Option<string> {
    if IsRoleWrite(op.op) && op.path == "" && EffectOf(op) == Fails then
      match DecodeObject(op.value)
      case None => None
      case Some(members) => var e := NotionEffect(members); if e.Sets? then Some(e.role) else None
    else None
  }

  /** Upper- and lower-case spellings of a word of small ASCII letters. */
  ghost predicate Spells(op: string, word: string) {
    |op| == |word| && forall i :: 0 <= i < |op| ==>
      op[i] == word[i] || ('A' <= op[i] <= 'Z' && op[i] as int + 32 == word[i] as int)
  }

  lemma RoleWriteSpellings(op: string)
    ensures IsRoleWrite(op) <==> Spells(op, "replace") || Spells(op, "add")
  {
    LowerSpells(op, "replace");
    LowerSpells(op, "add");
  }

  lemma LowerSpells(op: string, word: string)
    requires forall i :: 0 <= i < |word| ==> 'a' <= word[i] <= 'z'
    ensures LowerAscii(op) == word <==> Spells(op, word)
  {
    if Spells(op, word) {
      assert forall i :: 0 <= i < |op| ==> LowerAscii(op)[i] == word[i];
    }
    if LowerAscii(op) == word {
      assert forall i :: 0 <= i < |op| ==> LowerAscii(op)[i] == word[i];
    }
  }

  // ---------- One operation, spelled out ----------

  /** The role a value names, if it is a string and one of the four. */
  function NamedRole(v: Option<Json>): Option<string> {
    match v
    case Some(String(r)) =>
      if r in {"owner", "membership_admin", "member", "restricted_member"} then Some(r) else None
    case _ => None
  }

  /** The path form: of `replace` and `add`, in any case, on the two paths that name the role, with a value
      that names one of the four roles, sets it; everything else with a path fails and changes nothing. */
  lemma PathForm(ext: Option<string>, op: PatchOp, order: seq<string>)
    requires op.path != "" && IsRangeOrder(op, order)
    ensures ApplyOp(ext, op, order)
            == if && (Spells(op.op, "replace") || Spells(op.op, "add"))
                  && op.path in {"urn:ietf:params:scim:schemas:extension:notion:2.0:User:role", "role"}
                  && NamedRole(op.value).Some?
               then Outcome(NamedRole(op.value), true) else Outcome(ext, false)
  {
    RoleWriteSpellings(op.op);
    assert SCHEMA_NOTION_USER + ":role" == "urn:ietf:params:scim:schemas:extension:notion:2.0:User:role";
  }

  /** The role that the Notion entry of an object names, if it has one that names one of the four. */
  function NamedByEntry(members: map<string, Json>): Option<string> {
    var urn := "urn:ietf:params:scim:schemas:extension:notion:2.0:User";
    if urn in members && members[urn].Object? && "role" in members[urn].members
    then NamedRole(Some(members[urn].members["role"])) else None
  }

  lemma NotionEffectIs(members: map<string, Json>)
    ensures NotionEffect(members) == if NamedByEntry(members).Some? then Sets(NamedByEntry(members).value) else Fails
  {
  }

  /** The object form: of `replace` and `add`, in any case. null and the empty object do nothing; the Notion
      entry alone sets the role it names; every other value fails, and leaves either the old role or the
      one that the Notion entry names. */
  lemma ObjectForm(ext: Option<string>, op: PatchOp, order: seq<string>)
    requires op.path == "" && IsRangeOrder(op, order)
    ensures var o := ApplyOp(ext, op, order);
            if !Spells(op.op, "replace") && !Spells(op.op, "add") then o == Outcome(ext, false)
            else
              match op.value
              case Some(Null) => o == Outcome(ext, true)
              case Some(Object(members)) =>
                if members == map[] then o == Outcome(ext, true)
                else if members.Keys == {"urn:ietf:params:scim:schemas:extension:notion:2.0:User"} then
                  o == if NamedByEntry(members).Some? then Outcome(NamedByEntry(members), true) else Outcome(ext, false)
                else
                  && !o.ok
                  && (o.ext == ext || (NamedByEntry(members).Some? && o.ext == NamedByEntry(members)))
              case _ => o == Outcome(ext, false)
  {
    RoleWriteSpellings(op.op);
    if (Spells(op.op, "replace") || Spells(op.op, "add")) && DecodeObject(op.value).Some? {
      ObjectFormOutcome(ext, DecodeObject(op.value).value, order);
      NotionEffectIs(DecodeObject(op.value).value);
    }
  }

  // ---------- Map-order independence of the object form ----------

  /** Ranging over the rest of the map after the Notion entry has been dealt with, or before it. */
  lemma {:induction false} RangeOutcome(ext: Option<string>, members: map<string, Json>, order: seq<string>)
    requires forall k :: k in order ==> k in members
    requires forall i, j :: 0 <= i < j < |order| ==> order[i] != order[j]
    ensures var o := ApplyMembers(ext, members, order);
            var e := NotionEffect(members);
            && (o.ok <==> order == [] || (order == [SCHEMA_NOTION_USER] && e.Sets?))
            && (order == [SCHEMA_NOTION_USER] ==> o.ext == After(e, ext))
            && (SCHEMA_NOTION_USER in order && order[0] == SCHEMA_NOTION_USER ==> o.ext == After(e, ext))
            && (order != [] && order[0] != SCHEMA_NOTION_USER ==> o.ext == ext)
    decreases order
  {
    if order != [] && order[0] == SCHEMA_NOTION_USER && |order| > 1 {
      RangeOutcome(ApplyMember(ext, order[0], members[order[0]]).ext, members, order[1..]);
      assert order[1] != order[0];
    }
  }

  lemma SingleKeyOrder(keys: set<string>, order: seq<string>, key: string)
    requires IsOrderOf(keys, order)
    ensures keys == {key} <==> order == [key]
  {
    if order == [key] {
      assert forall k :: k in keys <==> k in order;
      assert keys == {key};
    }
    assert |order| > 1 ==> order[0] != order[1] && order[0] in keys && order[1] in keys;
    assert |order| == 1 ==> order[0] in keys;
    if keys == {key} {
      assert key in order;
    }
  }

  /** For every iteration order: success exactly when nothing but a valid Notion entry is there,
      one result for all successful runs, and a failing run leaves the old role or the stray one. */
  lemma ObjectFormOutcome(ext: Option<string>, members: map<string, Json>, order: seq<string>)
    requires IsOrderOf(members.Keys, order)
    ensures var o := ApplyMembers(ext, members, order);
            var e := ObjectEffect(members);
            && (o.ok <==> e != Fails)
            && (o.ok ==> o.ext == After(e, ext))
            && (!o.ok ==> o.ext == ext || o.ext == After(NotionEffect(members), ext))
  {
    RangeOutcome(ext, members, order);
    if order == [] {
      assert members == map[];
    } else {
      assert order[0] in members;
      SingleKeyOrder(members.Keys, order, SCHEMA_NOTION_USER);
    }
  }

  lemma {:induction false} OrderFrom(keys: set<string>, k: string) returns (order: seq<string>)
    requires k in keys
    ensures IsOrderOf(keys, order) && order != [] && order[0] == k
    decreases keys, 0
  {
    var rest := keys - {k};
    if rest == {} {
      order := [k];
    } else {
      var next :| next in rest;
      var tail := OrderFrom(rest, next);
      order := [k] + tail;
    }
  }

  /** Two runs over the same object can end differently exactly when a valid Notion entry that
      changes the role stands beside another namespace. */
  lemma OrderMattersExactlyWhen(ext: Option<string>, members: map<string, Json>)
    ensures (exists o1, o2 :: IsOrderOf(members.Keys, o1) && IsOrderOf(members.Keys, o2)
               && ApplyMembers(ext, members, o1) != ApplyMembers(ext, members, o2))
            <==>
            (NotionEffect(members).Sets? && |members| > 1 && ext != Some(NotionEffect(members).role))
  {
    var e := NotionEffect(members);
    if e.Sets? && |members| > 1 && ext != Some(e.role) {
      assert members.Keys - {SCHEMA_NOTION_USER} != {} by {
        assert members.Keys == {SCHEMA_NOTION_USER} + (members.Keys - {SCHEMA_NOTION_USER});
      }
      var other :| other in members.Keys - {SCHEMA_NOTION_USER};
      var o1 := OrderFrom(members.Keys, SCHEMA_NOTION_USER);
      var o2 := OrderFrom(members.Keys, other);
      RangeOutcome(ext, members, o1);
      RangeOutcome(ext, members, o2);
    } else {
      forall o1, o2 | IsOrderOf(members.Keys, o1) && IsOrderOf(members.Keys, o2)
        ensures ApplyMembers(ext, members, o1) == ApplyMembers(ext, members, o2)
      {
        ObjectFormOutcome(ext, members, o1);
        ObjectFormOutcome(ext, members, o2);
        if e.Sets? && |members| <= 1 {
          assert members.Keys == {SCHEMA_NOTION_USER} + (members.Keys - {SCHEMA_NOTION_USER});
          assert members.Keys == {SCHEMA_NOTION_USER};
        }
      }
    }
  }

  // ---------- One operation, and sequences of operations ----------

  lemma OneOperation(ext: Option<string>, op: PatchOp, order: seq<string>)
    requires IsRangeOrder(op, order)
    ensures var o := ApplyOp(ext, op, order);
            && (o.ok <==> EffectOf(op) != Fails)
            && (o.ok ==> o.ext == After(EffectOf(op), ext))
            && (!o.ok ==> o.ext == ext || (StrayWrite(op).Some? && o.ext == StrayWrite(op)))
  {
    if op.path == "" && DecodeObject(op.value).Some? {
      ObjectFormOutcome(ext, DecodeObject(op.value).value, order);
    }
  }

  /** The extension once every operation in ops has had its effect: the last role set wins. */
  ghost function LastSet(ext: Option<string>, ops: seq<PatchOp>): Option<string> {
    if ops == [] then ext
    else
      var last := EffectOf(ops[|ops| - 1]);
      if last.Sets? then Some(last.role) else LastSet(ext, ops[..|ops| - 1])
  }

  /** k operations run before the first one that fails; k == |ops| when none does. */
  ghost predicate StopsAt(ops: seq<PatchOp>, k: nat) {
    && k <= |ops|
    && (forall i :: 0 <= i < k ==> EffectOf(ops[i]) != Fails)
    && (k < |ops| ==> EffectOf(ops[k]) == Fails)
  }

  lemma {:induction false} LastSetCons(ext: Option<string>, ops: seq<PatchOp>)
    requires ops != []
    ensures LastSet(ext, ops) == LastSet(After(EffectOf(ops[0]), ext), ops[1..])
  {
    var n := |ops| - 1;
    if n > 0 {
      LastSetCons(ext, ops[..n]);
      assert ops[..n][1..] == ops[1..][..n - 1];
    } else {
      assert ops[..n] == [] && LastSet(ext, []) == ext;
    }
  }

  /** Any request: answered with success exactly when no operation fails, and the role left is the
      one set by the last operation before the first failing one, unless that failing operation
      itself made a stray write. Nothing is rolled back. */
  lemma {:induction false} ManyOperations(ext: Option<string>, ops: seq<PatchOp>, orders: seq<seq<string>>, k: nat)
    requires AreRangeOrders(ops, orders) && StopsAt(ops, k)
    ensures var o := ApplyOps(ext, ops, orders);
            && (o.ok <==> k == |ops|)
            && (o.ext == LastSet(ext, ops[..k])
                || (k < |ops| && StrayWrite(ops[k]).Some? && o.ext == StrayWrite(ops[k])))
    decreases |ops|
  {
    if ops != [] {
      OneOperation(ext, ops[0], orders[0]);
      if k == 0 {
        assert ops[..k] == [];
      } else {
        ManyOperations(ApplyOp(ext, ops[0], orders[0]).ext, ops[1..], orders[1..], k - 1);
        LastSetCons(ext, ops[..k]);
        assert ops[..k][1..] == ops[1..][..k - 1];
      }
    }
  }

  lemma {:induction false} StopExists(ops: seq<PatchOp>) returns (k: nat)
    ensures StopsAt(ops, k)
  {
    if ops == [] || EffectOf(ops[0]) == Fails {
      k := 0;
    } else {
      k := StopExists(ops[1..]);
      k := k + 1;
    }
  }

  /** The last role set, named by position: i is the last operation of ops that sets one. */
  lemma {:induction false} LastSetIs(ext: Option<string>, ops: seq<PatchOp>, i: nat)
    requires i < |ops| && EffectOf(ops[i]).Sets?
    requires forall j :: i < j < |ops| ==> EffectOf(ops[j]) == Keeps
    ensures LastSet(ext, ops) == Some(EffectOf(ops[i]).role)
  {
    if i < |ops| - 1 {
      LastSetIs(ext, ops[..|ops| - 1], i);
    }
  }

  lemma {:induction false} NothingSet(ext: Option<string>, ops: seq<PatchOp>)
    requires forall j :: 0 <= j < |ops| ==> EffectOf(ops[j]) == Keeps
    ensures LastSet(ext, ops) == ext
  {
    if ops != [] {
      NothingSet(ext, ops[..|ops| - 1]);
    }
  }

  // ---------- What exactly a failing request leaves ----------

  /** A request that stops at operation k leaves what that operation makes of the role set before it. */
  lemma {:induction false} StopsWith(ext: Option<string>, ops: seq<PatchOp>, orders: seq<seq<string>>, k: nat)
    requires AreRangeOrders(ops, orders) && StopsAt(ops, k) && k < |ops|
    ensures ApplyOps(ext, ops, orders).ext == ApplyOp(LastSet(ext, ops[..k]), ops[k], orders[k]).ext
    decreases |ops|
  {
    OneOperation(ext, ops[0], orders[0]);
    if k == 0 {
      assert ops[..k] == [];
    } else {
      StopsWith(ApplyOp(ext, ops[0], orders[0]).ext, ops[1..], orders[1..], k - 1);
      LastSetCons(ext, ops[..k]);
      assert ops[..k][1..] == ops[1..][..k - 1];
    }
  }

  lemma SomeOrder(op: PatchOp) returns (order: seq<string>)
    ensures IsRangeOrder(op, order)
  {
    order := [];
    if DecodeObject(op.value).Some? && DecodeObject(op.value).value != map[] {
      var members := DecodeObject(op.value).value;
      var key :| key in members.Keys;
      order := OrderFrom(members.Keys, key);
    }
  }

  lemma {:induction false} OrdersWith(ops: seq<PatchOp>, k: nat, order: seq<string>) returns (orders: seq<seq<string>>)
    requires k < |ops| && IsRangeOrder(ops[k], order)
    ensures AreRangeOrders(ops, orders) && orders[k] == order
    decreases |ops|
  {
    var n := |ops| - 1;
    if n == k {
      orders := OrdersOf(ops[..n]);
      orders := orders + [order];
    } else {
      orders := OrdersWith(ops[..n], k, order);
      var last := SomeOrder(ops[n]);
      orders := orders + [last];
    }
  }

  lemma {:induction false} OrdersOf(ops: seq<PatchOp>) returns (orders: seq<seq<string>>)
    ensures AreRangeOrders(ops, orders)
  {
    orders := [];
    if ops != [] {
      var n := |ops| - 1;
      orders := OrdersOf(ops[..n]);
      var last := SomeOrder(ops[n]);
      orders := orders + [last];
    }
  }

  lemma OtherKey(members: map<string, Json>) returns (other: string)
    requires NotionEffect(members).Sets? && ObjectEffect(members) == Fails
    ensures other in members.Keys && other != SCHEMA_NOTION_USER
  {
    assert members.Keys - {SCHEMA_NOTION_USER} != {} by {
      assert members.Keys == {SCHEMA_NOTION_USER} + (members.Keys - {SCHEMA_NOTION_USER});
    }
    other :| other in members.Keys - {SCHEMA_NOTION_USER};
  }

  /** A failing operation that can make a stray write makes it or not, as the range goes. */
  lemma StrayOrNot(ext: Option<string>, op: PatchOp) returns (stray: seq<string>, clean: seq<string>)
    requires EffectOf(op) == Fails
    ensures IsRangeOrder(op, stray) && IsRangeOrder(op, clean)
    ensures ApplyOp(ext, op, clean).ext == ext
    ensures ApplyOp(ext, op, stray).ext == if StrayWrite(op).Some? then StrayWrite(op) else ext
  {
    if StrayWrite(op).Some? {
      var members := DecodeObject(op.value).value;
      var other := OtherKey(members);
      stray := OrderFrom(members.Keys, SCHEMA_NOTION_USER);
      clean := OrderFrom(members.Keys, other);
      RangeOutcome(ext, members, stray);
      RangeOutcome(ext, members, clean);
    } else {
      stray := SomeOrder(op);
      clean := stray;
      OneOperation(ext, op, stray);
    }
  }

  /** The extension x is left by some way the ranges may go. */
  ghost predicate MayLeave(ext: Option<string>, ops: seq<PatchOp>, x: Option<string>) {
    exists orders :: AreRangeOrders(ops, orders) && ApplyOps(ext, ops, orders).ext == x
  }

  /** A failing request leaves the role set before the operation that fails, or that operation's stray
      write if it can make one; and each of the two by some way the ranges may go. */
  lemma FailureLeavesExactly(ext: Option<string>, ops: seq<PatchOp>, k: nat, x: Option<string>)
    requires StopsAt(ops, k) && k < |ops|
    ensures MayLeave(ext, ops, x)
            <==> x == LastSet(ext, ops[..k]) || (StrayWrite(ops[k]).Some? && x == StrayWrite(ops[k]))
  {
    var before := LastSet(ext, ops[..k]);
    var stray, clean := StrayOrNot(before, ops[k]);
    var o1 := OrdersWith(ops, k, stray);
    var o2 := OrdersWith(ops, k, clean);
    StopsWith(ext, ops, o1, k);
    StopsWith(ext, ops, o2, k);
    forall orders | AreRangeOrders(ops, orders)
      ensures ApplyOps(ext, ops, orders).ext == before
              || (StrayWrite(ops[k]).Some? && ApplyOps(ext, ops, orders).ext == StrayWrite(ops[k]))
    {
      StopsWith(ext, ops, orders, k);
      OneOperation(before, ops[k], orders[k]);
    }
  }

  /** When a failing request is atomic, as section 3.5.2 of RFC 7644 asks: it leaves the user unchanged,
      however the ranges go, exactly when the operations before the failing one set no other role and
      that one can make no stray write of another role. */
  lemma FailureIsAtomicExactlyWhen(ext: Option<string>, ops: seq<PatchOp>, k: nat)
    requires StopsAt(ops, k) && k < |ops|
    ensures (forall orders :: AreRangeOrders(ops, orders) ==> ApplyOps(ext, ops, orders).ext == ext)
            <==> LastSet(ext, ops[..k]) == ext && (StrayWrite(ops[k]).Some? ==> StrayWrite(ops[k]) == ext)
  {
    FailureLeavesExactly(ext, ops, k, LastSet(ext, ops[..k]));
    FailureLeavesExactly(ext, ops, k, StrayWrite(ops[k]));
    forall orders | AreRangeOrders(ops, orders)
      ensures MayLeave(ext, ops, ApplyOps(ext, ops, orders).ext)
    {
    }
    forall x | MayLeave(ext, ops, x)
      ensures x == LastSet(ext, ops[..k]) || (StrayWrite(ops[k]).Some? && x == StrayWrite(ops[k]))
    {
      FailureLeavesExactly(ext, ops, k, x);
    }
  }

  /** A failing request with several operations keeps what the earlier ones did. */
  lemma FailureIsNotRolledBack()
    ensures exists ext, ops, orders :: AreRangeOrders(ops, orders)
              && !ApplyOps(ext, ops, orders).ok && ApplyOps(ext, ops, orders).ext != ext
  {
    var set0 := PatchOp("replace", "role", Some(String(OWNER)));
    var bad := PatchOp("remove", "role", None);
    var ops, orders := [set0, bad], [[], []];
    var ext := Some(MEMBER);
    assert LowerAscii("replace") == "replace";
    assert LowerAscii("remove") == "remove";
    assert EffectOf(set0) == Sets(OWNER) && EffectOf(bad) == Fails;
    assert AreRangeOrders(ops, orders);
    assert StopsAt(ops, 1);
    ManyOperations(ext, ops, orders, 1);
    assert ops[..1] == [set0];
    assert LastSet(ext, ops[..1]) == Some(OWNER);
  }

  // ---------- The request the connector builds ----------

  /** One `replace` in the object form, with the Notion namespace alone. */
  function RolePatch(role: string): seq<PatchOp> {
    [PatchOp("replace", "", Some(Object(map[SCHEMA_NOTION_USER := Object(map["role" := String(role)])])))]
  }

  function RolePatchOrders(): seq<seq<string>> { [[SCHEMA_NOTION_USER]] }

  /** The path form of the same request. */
  function PathPatch(path: string, role: string): seq<PatchOp> {
    [PatchOp("replace", path, Some(String(role)))]
  }

  lemma RolePatchOutcome(ext: Option<string>, role: string, orders: seq<seq<string>>)
    requires AreRangeOrders(RolePatch(role), orders)
    ensures ApplyOps(ext, RolePatch(role), orders)
            == if KnownRole(role) then Outcome(Some(role), true) else Outcome(ext, false)
    ensures AreRangeOrders(RolePatch(role), RolePatchOrders())
  {
    var ops := RolePatch(role);
    var members := ops[0].value.value.members;
    assert LowerAscii("replace") == "replace";
    assert members.Keys == {SCHEMA_NOTION_USER};
    assert EffectOf(ops[0]) == if KnownRole(role) then Sets(role) else Fails;
    var k := StopExists(ops);
    assert StrayWrite(ops[0]) == None;
    ManyOperations(ext, ops, orders, k);
    assert ops[..k] == if k == 0 then [] else ops;
    assert LastSet(ext, []) == ext;
    assert ops[..0] == [];
    assert IsRangeOrder(ops[0], RolePatchOrders()[0]);
  }
}
