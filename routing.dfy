/**
 * Path routing of the fridge truck's AirVantage handlers.
 *
 * Both inbound handlers (setting write and command execution) receive a
 * resource path and pick the first known field name that occurs in it as a
 * substring (strstr(path, token) != NULL). This module gives that test,
 * the two first-match routers, and proofs that every resource path the truck
 * registers reaches its own branch.
 */
module Routing {

  datatype Option<T> = None | Some(value: T)

  /** `t` occurs in `s` starting at index `i`. */
  predicate OccursAt(s: string, t: string, i: int)
  {
    0 <= i && i + |t| <= |s| && s[i..i + |t|] == t
  }

  /** strstr(s, t) != NULL: `t` occurs somewhere in `s`. */
  predicate Contains(s: string, t: string)
  {
    exists i :: 0 <= i <= |s| - |t| && OccursAt(s, t, i)
  }

  lemma OccursImpliesContains(s: string, t: string, i: int)
    requires OccursAt(s, t, i)
    ensures Contains(s, t)
  {
  }

  /** An occurrence of `t` at `i` puts the `j`-th character of `t` at an index of `s` no smaller than `j`. */
  lemma OccurrencePlacesChar(s: string, t: string, i: int, j: int)
    requires OccursAt(s, t, i) && 0 <= j < |t|
    ensures j <= i + j < |s| && s[i + j] == t[j]
  {
    assert s[i..i + |t|][j] == s[i + j];
  }

  /**
   * `s` cannot contain `t` when the `j`-th character of `t` does not occur in
   * `s` at or after index `j` (with j = 0: a character of `t` missing from `s`).
   */
  lemma MisplacedCharNotContained(s: string, t: string, j: nat)
    requires j < |t|
    requires forall k :: j <= k < |s| ==> s[k] != t[j]
    ensures !Contains(s, t)
  {
    forall i | OccursAt(s, t, i) ensures false {
      OccurrencePlacesChar(s, t, i, j);
    }
  }

  /** The settings the write handler knows (FIELDNAME_* of fridgeTruck.c). */
  datatype Setting = DataGen | DataPush | Target | Outside | MangohType

  function SettingToken(f: Setting): string
  {
    match f
    case DataGen => "datagen"
    case DataPush => "datapush"
    case Target => "target"
    case Outside => "outside"
    case MangohType => "mangohType"
  }

  /** Position of a setting in the handler's else-if chain. */
  function SettingRank(f: Setting): nat
  {
    match f
    case DataGen => 0
    case DataPush => 1
    case Target => 2
    case Outside => 3
    case MangohType => 4
  }

  /** The setting whose token the write handler finds first in `path`, if any. */
  function SettingOf(path: string): (r: Option<Setting>)
    ensures r.Some? ==> Contains(path, SettingToken(r.value))
    ensures r.Some? ==> forall g :: SettingRank(g) < SettingRank(r.value) ==> !Contains(path, SettingToken(g))
    ensures r.None? <==> forall g :: !Contains(path, SettingToken(g))
  {
    if Contains(path, "datagen") then Some(DataGen)
    else if Contains(path, "datapush") then Some(DataPush)
    else if Contains(path, "target") then Some(Target)
    else if Contains(path, "outside") then Some(Outside)
    else if Contains(path, "mangohType") then Some(MangohType)
    else None
  }

  /** The commands the command handler knows (FIELDNAME_* of fridgeTruck.c). */
  datatype Command = StartFan | StopFan | OpenDoor | CloseDoor

  function CommandToken(c: Command): string
  {
    match c
    case StartFan => "startFan"
    case StopFan => "stopFan"
    case OpenDoor => "openDoor"
    case CloseDoor => "closeDoor"
  }

  function CommandRank(c: Command): nat
  {
    match c
    case StartFan => 0
    case StopFan => 1
    case OpenDoor => 2
    case CloseDoor => 3
  }

  /** The command whose token the command handler finds first in `path`, if any. */
  function CommandOf(path: string): (r: Option<Command>)
    ensures r.Some? ==> Contains(path, CommandToken(r.value))
    ensures r.Some? ==> forall c :: CommandRank(c) < CommandRank(r.value) ==> !Contains(path, CommandToken(c))
    ensures r.None? <==> forall c :: !Contains(path, CommandToken(c))
  {
    if Contains(path, "startFan") then Some(StartFan)
    else if Contains(path, "stopFan") then Some(StopFan)
    else if Contains(path, "openDoor") then Some(OpenDoor)
    else if Contains(path, "closeDoor") then Some(CloseDoor)
    else None
  }

  // Each resource path the truck registers (SETTING_* and COMMAND_* of
  // fridgeTruck.c) reaches its own branch of the handler it is bound to.

  lemma DataGenPathRoutes(path: string)
    requires path == "truck.set.interval.datagen"
    ensures SettingOf(path) == Some(DataGen)
  {
    assert Contains(path, "datagen") by { OccursImpliesContains(path, "datagen", 19); }
  }

  lemma DataPushPathRoutes(path: string)
    requires path == "truck.set.interval.datapush"
    ensures SettingOf(path) == Some(DataPush)
  {
    assert !Contains(path, "datagen") by { MisplacedCharNotContained(path, "datagen", 4); }
    assert Contains(path, "datapush") by { OccursImpliesContains(path, "datapush", 19); }
  }

  lemma TargetPathRoutes(path: string)
    requires path == "truck.set.temp.target"
    ensures SettingOf(path) == Some(Target)
  {
    assert !Contains(path, "datagen") by { MisplacedCharNotContained(path, "datagen", 0); }
    assert !Contains(path, "datapush") by { MisplacedCharNotContained(path, "datapush", 0); }
    assert Contains(path, "target") by { OccursImpliesContains(path, "target", 15); }
  }

  lemma OutsidePathRoutes(path: string)
    requires path == "truck.set.temp.outside"
    ensures SettingOf(path) == Some(Outside)
  {
    assert !Contains(path, "datagen") by { MisplacedCharNotContained(path, "datagen", 4); }
    assert !Contains(path, "datapush") by { MisplacedCharNotContained(path, "datapush", 7); }
    assert !Contains(path, "target") by { MisplacedCharNotContained(path, "target", 3); }
    assert Contains(path, "outside") by { OccursImpliesContains(path, "outside", 15); }
  }

  lemma MangohTypePathRoutes(path: string)
    requires path == "truck.set.mangohType"
    ensures SettingOf(path) == Some(MangohType)
  {
    assert !Contains(path, "datagen") by { MisplacedCharNotContained(path, "datagen", 0); }
    assert !Contains(path, "datapush") by { MisplacedCharNotContained(path, "datapush", 0); }
    assert !Contains(path, "target") by { MisplacedCharNotContained(path, "target", 2); }
    assert !Contains(path, "outside") by { MisplacedCharNotContained(path, "outside", 5); }
    assert Contains(path, "mangohType") by { OccursImpliesContains(path, "mangohType", 10); }
  }

  lemma StartFanPathRoutes(path: string)
    requires path == "truck.cmd.startFan"
    ensures CommandOf(path) == Some(StartFan)
  {
    assert Contains(path, "startFan") by { OccursImpliesContains(path, "startFan", 10); }
  }

  lemma StopFanPathRoutes(path: string)
    requires path == "truck.cmd.stopFan"
    ensures CommandOf(path) == Some(StopFan)
  {
    assert !Contains(path, "startFan") by { MisplacedCharNotContained(path, "startFan", 3); }
    assert Contains(path, "stopFan") by { OccursImpliesContains(path, "stopFan", 10); }
  }

  lemma OpenDoorPathRoutes(path: string)
    requires path == "truck.cmd.openDoor"
    ensures CommandOf(path) == Some(OpenDoor)
  {
    assert !Contains(path, "startFan") by { MisplacedCharNotContained(path, "startFan", 5); }
    assert !Contains(path, "stopFan") by { MisplacedCharNotContained(path, "stopFan", 4); }
    assert Contains(path, "openDoor") by { OccursImpliesContains(path, "openDoor", 10); }
  }

  lemma CloseDoorPathRoutes(path: string)
    requires path == "truck.cmd.closeDoor"
    ensures CommandOf(path) == Some(CloseDoor)
  {
    assert !Contains(path, "startFan") by { MisplacedCharNotContained(path, "startFan", 5); }
    assert !Contains(path, "stopFan") by { MisplacedCharNotContained(path, "stopFan", 4); }
    assert !Contains(path, "openDoor") by { MisplacedCharNotContained(path, "openDoor", 1); }
    assert Contains(path, "closeDoor") by { OccursImpliesContains(path, "closeDoor", 10); }
  }
}
