/**
 * The task domain (todo/domain/task.py): the `TaskKey` and `TaskName` value
 * objects and the immutable `Task` entity with its copy-with-changes
 * transitions. Clock readings and the 16 random bytes of a UUID are
 * parameters.
 */
module TaskDomain {
  import opened Wrappers
  import opened Errors
  import opened Datastore
  import opened Digits
  import opened Base32
  import opened Project

  // ---------------------------------------------------------------------
  // TaskKey

  const TASK_KIND: string := "Task"

  datatype TaskKey = TaskKey(taskId: KeyId)

  /** An identifier `build_by_id` leaves as it is: not a string of digits. */
  predicate Normalised(id: KeyId) {
    !(id.NameId? && IsDigitString(id.s))
  }

  /** `TaskKey.build_by_id`: a digit string becomes the integer it spells. */
  function BuildById(taskId: KeyId): (k: TaskKey)
    ensures Normalised(k.taskId)
    ensures Normalised(taskId) ==> k.taskId == taskId
    ensures !Normalised(taskId) ==> k.taskId == IntId(ParseDigits(taskId.s))
  {
    if taskId.NameId? && IsDigitString(taskId.s) then TaskKey(IntId(ParseDigits(taskId.s)))
    else TaskKey(taskId)
  }

  /** `build_by_id(str(n)) == build_by_id(n)` exactly for the non-negative `n`. */
  lemma BuildByIdOfDecimal(n: int)
    ensures n >= 0 ==> BuildById(NameId(IntToString(n))) == BuildById(IntId(n))
    ensures n < 0 ==> BuildById(NameId(IntToString(n))) != BuildById(IntId(n))
  {
    if n >= 0 {
      ParseNatToString(n);
    } else {
      NegativeNotDigitString(n);
    }
  }

  /** Normalising twice is normalising once. */
  lemma BuildByIdIdempotent(taskId: KeyId)
    ensures BuildById(BuildById(taskId).taskId) == BuildById(taskId)
  {
  }

  /** `TaskKey.build_from_key`: a root key of kind "Task", then `build_by_id` of its id. */
  function BuildFromKey(key: StoreKey): (r: Result<TaskKey, Error>)
    ensures r.Success? <==> key.parent.None? && key.kind == TASK_KIND
    ensures key.parent.Some? ==> r == Failure(KeyHasParent)
    ensures key.parent.None? && key.kind != TASK_KIND ==> r == Failure(WrongKind(key.kind))
    ensures r.Success? ==> r.value == BuildById(key.id)
  {
    if key.parent.Some? then Failure(KeyHasParent)
    else if key.kind != TASK_KIND then Failure(WrongKind(key.kind))
    else Success(BuildById(key.id))
  }

  /** A character of a generated id: a lower-case letter or a digit '2'..'7'. */
  predicate IsIdChar(c: char) {
    'a' <= c <= 'z' || '2' <= c <= '7'
  }

  /**
   * `TaskKey._generate_new_uuid` on the 16 bytes of a UUID: base32, the
   * `======` padding removed, lower-cased.
   */
  function GenerateNewUuid(uuidBytes: seq<Byte>): (id: string)
    requires |uuidBytes| == 16
    ensures |id| == 26
    ensures forall i :: 0 <= i < |id| ==> IsIdChar(id[i])
    ensures '=' !in id
  {
    EncodeSixteen(uuidBytes);
    Lower(Replace(Encode(uuidBytes), "======", ""))
  }

  /** `TaskKey.build_for_new`, with the UUID's bytes as a parameter. */
  function BuildForNew(uuidBytes: seq<Byte>): (k: TaskKey)
    requires |uuidBytes| == 16
    ensures k.taskId == NameId(GenerateNewUuid(uuidBytes))
  {
    TaskKey(NameId(GenerateNewUuid(uuidBytes)))
  }

  /** The 5-bit groups of a 16-byte input: 128 bits and two zero bits. */
  function SixteenGroups(data: seq<Byte>): (vs: seq<nat>)
    requires |data| == 16
    ensures |vs| == 26 && forall i :: 0 <= i < 26 ==> vs[i] < 32
  {
    var bits := BytesToBits(data) + Zeros(2);
    MultipleTimes(5, 26);
    Groups(bits, 5)
  }

  /** The encoding of 16 bytes is 26 symbols followed by six '='. */
  lemma EncodeSixteen(data: seq<Byte>)
    requires |data| == 16
    ensures Encode(data) == Symbols(SixteenGroups(data)) + "======"
    ensures Replace(Encode(data), "======", "") == Symbols(SixteenGroups(data))
  {
    var s := Symbols(SixteenGroups(data));
    assert Repeat('=', 6) == "======";
    forall i | 0 <= i < |s| ensures s[i] != '=' {
      SymbolIsIdChar(SixteenGroups(data)[i]);
    }
    ReplaceTrailingPadding(s);
  }

  lemma SymbolIsIdChar(v: nat)
    requires v < 32
    ensures IsIdChar(LowerChar(Symbol(v))) && SymbolValue(LowerChar(Symbol(v))) == v
    ensures Symbol(v) != '='
  {
  }

  /** The value of a character of a generated id (the inverse of the lower-cased symbol table). */
  function SymbolValue(c: char): (v: nat)
    requires IsIdChar(c)
    ensures v < 32
  {
    if 'a' <= c <= 'z' then c as int - 'a' as int else c as int - '2' as int + 26
  }

  /** Reads a generated id back into the 16 bytes it was made from. */
  function DecodeNewUuid(id: string): (r: Option<seq<Byte>>)
    ensures r.Some? ==> |r.value| == 16
  {
    if |id| == 26 && forall i :: 0 <= i < 26 ==> IsIdChar(id[i]) then
      var vs := seq(26, i requires 0 <= i < 26 => SymbolValue(id[i]));
      var bits := Ungroup(vs, 5)[..128];
      assert |bits| == 128 && Multiple(128, 8);
      var bytes := Groups(bits, 8);
      Some(seq(16, i requires 0 <= i < 16 => bytes[i] as Byte))
    else None
  }

  /** Every generated id decodes back to the bytes it came from. */
  lemma {:induction false} DecodeGenerateNewUuid(uuidBytes: seq<Byte>)
    requires |uuidBytes| == 16
    ensures DecodeNewUuid(GenerateNewUuid(uuidBytes)) == Some(uuidBytes)
  {
    var id := GenerateNewUuid(uuidBytes);
    var groups := SixteenGroups(uuidBytes);
    EncodeSixteen(uuidBytes);
    var vs := seq(26, i requires 0 <= i < 26 => SymbolValue(id[i]));
    forall i | 0 <= i < 26 ensures vs[i] == groups[i] {
      SymbolIsIdChar(groups[i]);
    }
    assert vs == groups;
    var bits := BytesToBits(uuidBytes);
    MultipleTimes(5, 26);
    UngroupGroups(bits + Zeros(2), 5);
    assert Ungroup(vs, 5)[..128] == bits;
    assert Pow2(8) == 256;
    GroupsUngroup(uuidBytes, 8);
    var bytes := Groups(bits, 8);
    assert bytes == uuidBytes;
    assert forall i | 0 <= i < 26 :: IsIdChar(id[i]);
    var decoded := seq(16, i requires 0 <= i < 16 => bytes[i] as Byte);
    assert DecodeNewUuid(id) == Some(decoded);
    assert decoded == uuidBytes;
  }

  /** Distinct UUID bytes give distinct ids. */
  lemma GenerateNewUuidInjective(a: seq<Byte>, b: seq<Byte>)
    requires |a| == 16 && |b| == 16
    requires GenerateNewUuid(a) == GenerateNewUuid(b)
    ensures a == b
  {
    DecodeGenerateNewUuid(a);
    DecodeGenerateNewUuid(b);
  }

  /** The bytes of a version-4 UUID (what `uuid.uuid4().bytes` returns): byte 6 has 4 in its high nibble. */
  predicate IsUuid4(uuidBytes: seq<Byte>) {
    |uuidBytes| == 16 && uuidBytes[6] / 16 == 4
  }

  /**
   * The version nibble makes character 10 of a generated id a letter 'a'..'h',
   * so an id generated from a version-4 UUID is never all digits and
   * `build_by_id` leaves it unchanged.
   */
  lemma NewIdOfUuid4IsNotDigits(uuidBytes: seq<Byte>)
    requires IsUuid4(uuidBytes)
    ensures 'a' <= GenerateNewUuid(uuidBytes)[10] <= 'h'
    ensures Normalised(BuildForNew(uuidBytes).taskId)
  {
    var nb := NatBits(uuidBytes[6], 8);
    ByteSixBits(uuidBytes);
    GroupTen(uuidBytes);
    assert BytesToBits(uuidBytes)[50..55] == nb[2..7];
    VersionNibbleGroup(uuidBytes[6]);
    EncodeSixteen(uuidBytes);
  }

  /** Bits 48..55 of a 16-byte input are byte 6. */
  lemma ByteSixBits(b: seq<Byte>)
    requires |b| == 16
    ensures BytesToBits(b)[48..56] == NatBits(b[6], 8)
  {
    assert b == b[..6] + ([b[6]] + b[7..]);
    UngroupAppend(b[..6], [b[6]] + b[7..], 8);
    UngroupAppend([b[6]], b[7..], 8);
    assert Ungroup([b[6]], 8) == NatBits(b[6], 8);
  }

  /** Group 10 of a 16-byte input is made of bits 50..54. */
  lemma GroupTen(b: seq<Byte>)
    requires |b| == 16
    ensures SixteenGroups(b)[10] == BitsValue(BytesToBits(b)[50..55])
  {
    var padded := BytesToBits(b) + Zeros(2);
    MultipleTimes(5, 10);
    MultipleTimes(5, 16);
    assert padded == padded[..50] + padded[50..];
    GroupsAppend(padded[..50], padded[50..], 5);
    var front, back := Groups(padded[..50], 5), Groups(padded[50..], 5);
    assert |front| == 10;
    assert back[0] == BitsValue(padded[50..][..5]);
    assert padded[50..][..5] == BytesToBits(b)[50..55];
  }

  /** With 0100 as its high nibble, bits 2..6 of a byte denote a number below 8. */
  lemma VersionNibbleGroup(v: Byte)
    requires v / 16 == 4
    ensures BitsValue(NatBits(v, 8)[2..7]) < 8
  {
    var nb := NatBits(v, 8);
    HighNibble(v);
    var low := nb[4..7];
    assert nb[2..7] == [false, false] + low;
    BitsValueAppend([false, false], low);
    assert |low| == 3 && Pow2(3) == 8;
  }

  /** A byte whose high nibble is 4 starts with the bits 0100. */
  lemma HighNibble(v: Byte)
    requires v / 16 == 4
    ensures NatBits(v, 8)[..4] == [false, true, false, false]
  {
    var nb := NatBits(v, 8);
    BitsValueOfNatBits(v, 8);
    HighBitsValue(nb);
    FourBits(nb[..4]);
  }

  /** The first four of eight bits denote the value divided by 16. */
  lemma HighBitsValue(bits: seq<bool>)
    requires |bits| == 8
    ensures BitsValue(bits[..4]) == BitsValue(bits) / 16
  {
    var h, l := BitsValue(bits[..4]), BitsValue(bits[4..]);
    assert Pow2(|bits| - 4) == 16 && Pow2(|bits[4..]|) == 16 by {
      assert |bits| - 4 == |bits[4..]| == 4 && Pow2(4) == 16;
    }
    assert BitsValue(bits) == h * 16 + l by {
      SplitValue(bits, 4);
    }
    assert l < 16;
  }

  /** The only four bits denoting 4 are 0100. */
  lemma FourBits(bits: seq<bool>)
    requires |bits| == 4 && BitsValue(bits) == 4
    ensures bits == [false, true, false, false]
  {
    NatBitsOfBitsValue(bits);
    assert NatBits(4, 4) == [false, true, false, false];
  }

  /** The value of a bit string, split after `k` bits. */
  lemma SplitValue(bits: seq<bool>, k: nat)
    requires k <= |bits|
    ensures BitsValue(bits) == BitsValue(bits[..k]) * Pow2(|bits| - k) + BitsValue(bits[k..])
  {
    assert bits == bits[..k] + bits[k..];
    BitsValueAppend(bits[..k], bits[k..]);
  }

  // ---------------------------------------------------------------------
  // TaskName

  const MAX_LENGTH: nat := 100

  /** Python's `\s` on `str` patterns: the characters `str.isspace` accepts. */
  predicate IsWhitespace(c: char) {
    var n := c as int;
    || n == 0x20 || 0x09 <= n <= 0x0D || 0x1C <= n <= 0x1F || n == 0x85 || n == 0xA0
    || n == 0x1680 || 0x2000 <= n <= 0x200A || n == 0x2028 || n == 0x2029
    || n == 0x202F || n == 0x205F || n == 0x3000
  }

  /** `re.fullmatch(r'\s', v)`: the whole of `v` is one whitespace character. */
  predicate IsSingleWhitespace(v: string) {
    |v| == 1 && IsWhitespace(v[0])
  }

  /** What `TaskName.__post_init__` lets through. */
  predicate NameRulesHold(v: string) {
    1 <= |v| <= MAX_LENGTH && !IsSingleWhitespace(v)
  }

  datatype TaskName = TaskName(value: string)

  /** A `TaskName` instance: construction never yields one that breaks the rules. */
  type ValidTaskName = n: TaskName | NameRulesHold(n.value) witness TaskName("a")

  /** `TaskName(v)`: the checks of `__post_init__`, in order. */
  function NewTaskName(v: string): (r: Result<ValidTaskName, Error>)
    ensures r.Success? <==> 1 <= |v| <= MAX_LENGTH && !IsSingleWhitespace(v)
    ensures r.Success? ==> r.value.value == v
    ensures |v| == 0 ==> r == Failure(NameEmpty)
    ensures |v| > MAX_LENGTH ==> r == Failure(NameTooLong)
    ensures IsSingleWhitespace(v) ==> r == Failure(NameOnlySpace)
  {
    if |v| == 0 then Failure(NameEmpty)
    else if |v| > MAX_LENGTH then Failure(NameTooLong)
    else if IsSingleWhitespace(v) then Failure(NameOnlySpace)
    else Success(TaskName(v))
  }

  /**
   * Only a single whitespace character is refused: a name of two to
   * `MAX_LENGTH` whitespace characters is accepted as it is.
   */
  lemma WhitespaceOnlyNamesAccepted(v: string)
    requires 2 <= |v| <= MAX_LENGTH
    requires forall i :: 0 <= i < |v| ==> IsWhitespace(v[i])
    ensures NewTaskName(v) == Success(TaskName(v))
  {
  }

  // ---------------------------------------------------------------------
  // Task

  datatype Task = Task(
    key: TaskKey,
    name: ValidTaskName,
    projectKey: Option<ProjectKey>,
    finishedAt: Option<Timestamp>,
    createdAt: Timestamp,
    updatedAt: Timestamp)
  {
    /** `is_finished`. */
    predicate IsFinished() {
      finishedAt.Some?
    }
  }

  /** The one field a `_clone` call replaces besides `updated_at`. */
  datatype Change =
    | ProjectKeyChange(projectKey: Option<ProjectKey>)
    | FinishedAtChange(finishedAt: Option<Timestamp>)
    | NameChange(name: ValidTaskName)

  /** `_clone(**changes)`: a copy with the change applied and `updated_at` set to the clock reading `now`. */
  function Clone(t: Task, change: Change, now: Timestamp): (r: Task)
    ensures r.key == t.key && r.createdAt == t.createdAt && r.updatedAt == now
    ensures r.projectKey == if change.ProjectKeyChange? then change.projectKey else t.projectKey
    ensures r.finishedAt == if change.FinishedAtChange? then change.finishedAt else t.finishedAt
    ensures r.name == if change.NameChange? then change.name else t.name
  {
    match change
    case ProjectKeyChange(pk) => t.(projectKey := pk, updatedAt := now)
    case FinishedAtChange(at) => t.(finishedAt := at, updatedAt := now)
    case NameChange(n) => t.(name := n, updatedAt := now)
  }

  function WithProjectKey(t: Task, projectKey: Option<ProjectKey>, now: Timestamp): (r: Task)
    ensures r == t.(projectKey := projectKey, updatedAt := now)
  {
    Clone(t, ProjectKeyChange(projectKey), now)
  }

  function WithFinishedAt(t: Task, finishedAt: Timestamp, now: Timestamp): (r: Task)
    ensures r == t.(finishedAt := Some(finishedAt), updatedAt := now)
    ensures r.IsFinished()
  {
    Clone(t, FinishedAtChange(Some(finishedAt)), now)
  }

  function ToCanceledFinish(t: Task, now: Timestamp): (r: Task)
    ensures r == t.(finishedAt := None, updatedAt := now)
    ensures !r.IsFinished()
  {
    Clone(t, FinishedAtChange(None), now)
  }

  /**
   * `to_finished_now` reads the clock twice: first for `finished_at`
   * (`finishNow`), then inside `_clone` for `updated_at` (`updateNow`).
   */
  function ToFinishedNow(t: Task, finishNow: Timestamp, updateNow: Timestamp): (r: Task)
    ensures r == t.(finishedAt := Some(finishNow), updatedAt := updateNow)
    ensures r.IsFinished()
  {
    WithFinishedAt(t, finishNow, updateNow)
  }

  function ToChangedTaskName(t: Task, name: ValidTaskName, now: Timestamp): (r: Task)
    ensures r == t.(name := name, updatedAt := now)
  {
    Clone(t, NameChange(name), now)
  }

  /** `is_finished` after each transition: set by the finishing ones, cleared by cancelling, kept by the others. */
  lemma IsFinishedAfterTransitions(t: Task, pk: Option<ProjectKey>, at: Timestamp, n: ValidTaskName, now: Timestamp, later: Timestamp)
    ensures ToFinishedNow(t, at, now).IsFinished()
    ensures !ToCanceledFinish(ToFinishedNow(t, at, now), later).IsFinished()
    ensures WithFinishedAt(t, at, now).IsFinished()
    ensures WithProjectKey(t, pk, now).IsFinished() == t.IsFinished()
    ensures ToChangedTaskName(t, n, now).IsFinished() == t.IsFinished()
  {
  }

  /** A second clone of the same field overrides the first: cancelling twice is cancelling once. */
  lemma CloneOverrides(t: Task, first: Change, second: Change, now: Timestamp, later: Timestamp)
    requires first.ProjectKeyChange? == second.ProjectKeyChange?
    requires first.FinishedAtChange? == second.FinishedAtChange?
    ensures Clone(Clone(t, first, now), second, later) == Clone(t, second, later)
  {
  }
}
