/** Scheduling of backup policies (yandex/backup_helpers.go): expanding the configuration into
    backup sets, and flattening backup sets, which converts their delays to seconds in place. */
module BackupScheduling {
  import opened GoText
  import opened BackupIntervals

  /** The enums of the schedule, as generated. */
  datatype Tables = Tables(day: EnumTable, period: EnumTable, setType: EnumTable, scheme: EnumTable)

  ghost predicate TablesOk(t: Tables) {
    TableOk(t.day) && TableOk(t.period) && TableOk(t.setType) && TableOk(t.scheme)
  }

  /** The laws can be met. */
  lemma TablesOkExist()
    ensures exists t :: TablesOk(t)
  {
    TableExists();
    var e :| TableOk(e) && 0 in e.names;
    assert TablesOk(Tables(e, e, e, e));
  }

  /** Text to value as expandBackupPolicySettingsDay and its like do it: unknown names become 0. */
  function EnumOrZero(e: EnumTable, s: string): int {
    if Upper(s) in e.values then e.values[Upper(s)] else 0
  }

  // ---------- configuration and messages ----------

  datatype TimeConfig = TimeConfig(
    repeatAt: seq<string>, weekdays: seq<string>, repeatEvery: string, monthdays: seq<int>,
    includeLastDayOfMonth: bool, months: seq<int>, period: string, runLater: bool)

  /** executeByInterval is 0 when unset, and executeByTime is empty. */
  datatype BackupSetConfig = BackupSetConfig(executeByInterval: int, executeByTime: seq<TimeConfig>, setType: string)

  datatype SchedulingConfig = SchedulingConfig(
    executeByInterval: int, executeByTime: seq<TimeConfig>, backupSets: seq<BackupSetConfig>,
    enabled: bool, maxParallelBackups: int, randomMaxDelay: string, scheme: string, weeklyBackupDay: string)

  datatype TimeRule = TimeRule(
    repeatAt: seq<Option<TimeOfDay>>, weekdays: seq<int>, repeatEvery: Option<IntervalValue>, monthdays: seq<int>,
    includeLastDayOfMonth: bool, months: seq<int>, period: int, runLater: bool)

  datatype Setting = NoSetting | SinceLastExec(delay: IntervalValue) | ByTime(rule: TimeRule)

  datatype BackupSet = BackupSet(setting: Setting, setType: int)

  datatype Scheduling = Scheduling(
    backupSets: seq<BackupSet>, enabled: bool, maxParallelBackups: int, randMaxDelay: Option<IntervalValue>,
    scheme: int, weeklyBackupDay: int)

  // ---------- expanding ----------

  function ParseTimes(texts: seq<string>): Result<seq<Option<TimeOfDay>>> {
    if texts == [] then Ok([])
    else
      match ParseTimes(texts[..|texts| - 1])
      case Err(e) => Err(e)
      case Ok(times) =>
        match ParseTimeOfDay(texts[|texts| - 1])
        case Err(e) => Err(e)
        case Ok(t) => Ok(times + [t])
  }

  function Days(t: Tables, texts: seq<string>): (days: seq<int>)
    ensures |days| == |texts|
    ensures forall i | 0 <= i < |texts| :: days[i] == EnumOrZero(t.day, texts[i])
  {
    seq(|texts|, i requires 0 <= i < |texts| => EnumOrZero(t.day, texts[i]))
  }

  /** The rule of a non-empty execute_by_time block: its first element. */
  function ExpandTimeRule(t: Tables, c: TimeConfig): Result<TimeRule> {
    match ParseTimes(c.repeatAt)
    case Err(e) => Err(e)
    case Ok(times) =>
      match ParseInterval(c.repeatEvery)
      case Err(e) => Err(e)
      case Ok(every) =>
        Ok(TimeRule(times, Days(t, c.weekdays), every, c.monthdays, c.includeLastDayOfMonth, c.months,
                    EnumOrZero(t.period, c.period), c.runLater))
  }

  method ExpandTimeRuleByLoops(t: Tables, c: TimeConfig) returns (r: Result<TimeRule>)
    ensures r == ExpandTimeRule(t, c)
  {
    var times: seq<Option<TimeOfDay>> := [];
    for i := 0 to |c.repeatAt|
      invariant ParseTimes(c.repeatAt[..i]) == Ok(times)
    {
      assert c.repeatAt[..i + 1][..i] == c.repeatAt[..i];
      var time := ParseTimeOfDay(c.repeatAt[i]);
      if time.Err? {
        ParseTimesFails(c.repeatAt, i + 1);
        return Err(time.error);
      }
      times := times + [time.value];
    }
    assert c.repeatAt[..|c.repeatAt|] == c.repeatAt;
    var weekdays: seq<int> := [];
    for i := 0 to |c.weekdays|
      invariant weekdays == Days(t, c.weekdays[..i])
    {
      weekdays := weekdays + [EnumOrZero(t.day, c.weekdays[i])];
    }
    assert c.weekdays[..|c.weekdays|] == c.weekdays;
    var every := ParseInterval(c.repeatEvery);
    if every.Err? {
      return Err(every.error);
    }
    return Ok(TimeRule(times, weekdays, every.value, c.monthdays, c.includeLastDayOfMonth, c.months,
                       EnumOrZero(t.period, c.period), c.runLater));
  }

  lemma {:induction false} ParseTimesFails(texts: seq<string>, n: nat)
    requires n <= |texts| && ParseTimes(texts[..n]).Err?
    ensures ParseTimes(texts) == ParseTimes(texts[..n])
    decreases |texts|
  {
    if n < |texts| {
      var front := texts[..|texts| - 1];
      assert front[..n] == texts[..n];
      ParseTimesFails(front, n);
    } else {
      assert texts[..n] == texts;
    }
  }

  function ExecuteByInterval(v: int): Option<Setting> {
    if v == 0 then None else Some(SinceLastExec(IntervalValue(Seconds, v)))
  }

  function ExecuteByTime(t: Tables, v: seq<TimeConfig>): Result<Option<Setting>> {
    if v == [] then Ok(None)
    else
      match ExpandTimeRule(t, v[0])
      case Err(e) => Err(e)
      case Ok(rule) => Ok(Some(ByTime(rule)))
  }

  /** expandBackupPolicySchedulingBackupSet */
  function ExpandBackupSet(t: Tables, c: BackupSetConfig): Result<BackupSet> {
    var byInterval := ExecuteByInterval(c.executeByInterval);
    match ExecuteByTime(t, c.executeByTime)
    case Err(e) => Err(e)
    case Ok(byTime) =>
      if byInterval.None? == byTime.None? then Err(Other)
      else Ok(BackupSet(if byInterval.Some? then byInterval.value else byTime.value, EnumOrZero(t.setType, c.setType)))
  }

  function ExpandBackupSets(t: Tables, cs: seq<BackupSetConfig>): Result<seq<BackupSet>> {
    if cs == [] then Ok([])
    else
      match ExpandBackupSets(t, cs[..|cs| - 1])
      case Err(e) => Err(e)
      case Ok(sets) =>
        match ExpandBackupSet(t, cs[|cs| - 1])
        case Err(e) => Err(e)
        case Ok(bs) => Ok(sets + [bs])
  }

  /** The backup sets of the deprecated top-level attributes: none, or one. */
  function DeprecatedSets(t: Tables, c: SchedulingConfig): Result<seq<BackupSet>> {
    match ExecuteByTime(t, c.executeByTime)
    case Err(e) => Err(e)
    case Ok(byTime) =>
      var byInterval := ExecuteByInterval(c.executeByInterval);
      if byInterval.Some? && byTime.Some? then Err(Other)
      else if byInterval.Some? then Ok([BackupSet(byInterval.value, 0)])
      else Ok(if byTime.Some? then [BackupSet(byTime.value, 0)] else [])
  }

  /** expandBackupPolicyScheduling; the schema set holds at most one block. */
  method ExpandScheduling(t: Tables, blocks: seq<SchedulingConfig>) returns (r: Result<Option<Scheduling>>)
    ensures blocks == [] ==> r == Ok(None)
    ensures blocks != [] ==> r == SchedulingOf(t, blocks[0])
  {
    if blocks == [] {
      return Ok(None);
    }
    var c := blocks[0];
    var deprecated := ExpandDeprecated(t, c);
    if deprecated.Err? {
      return Err(deprecated.error);
    }
    var configured := ExpandSetsInTurn(t, c.backupSets);
    if configured.Err? {
      return Err(configured.error);
    }
    var sets := deprecated.value + configured.value;
    if |sets| == 0 {
      return Err(Other);
    }
    var delay := ParseInterval(c.randomMaxDelay);
    if delay.Err? {
      return Err(delay.error);
    }
    return Ok(Some(Scheduling(sets, c.enabled, c.maxParallelBackups, delay.value,
                              EnumOrZero(t.scheme, c.scheme), EnumOrZero(t.day, c.weeklyBackupDay))));
  }

  method ExpandDeprecated(t: Tables, c: SchedulingConfig) returns (r: Result<seq<BackupSet>>)
    ensures r == DeprecatedSets(t, c)
  {
    var sets: seq<BackupSet> := [];
    var byInterval, byTime := false, false;
    var bs := ExecuteByInterval(c.executeByInterval);
    if bs.Some? {
      byInterval := true;
      sets := sets + [BackupSet(bs.value, 0)];
    }
    var timed := ExecuteByTime(t, c.executeByTime);
    if timed.Err? {
      return Err(timed.error);
    }
    if timed.value.Some? {
      byTime := true;
      sets := sets + [BackupSet(timed.value.value, 0)];
    }
    if byTime && byInterval {
      return Err(Other);
    }
    assert byInterval ==> sets == [BackupSet(bs.value, 0)];
    assert byTime ==> sets == [BackupSet(timed.value.value, 0)];
    return Ok(sets);
  }

  method ExpandSetsInTurn(t: Tables, cs: seq<BackupSetConfig>) returns (r: Result<seq<BackupSet>>)
    ensures r == ExpandBackupSets(t, cs)
  {
    var sets: seq<BackupSet> := [];
    for i := 0 to |cs|
      invariant ExpandBackupSets(t, cs[..i]) == Ok(sets)
    {
      assert cs[..i + 1][..i] == cs[..i];
      var s := ExpandBackupSet(t, cs[i]);
      if s.Err? {
        ExpandBackupSetsFails(t, cs, i + 1);
        return Err(s.error);
      }
      sets := sets + [s.value];
    }
    assert cs[..|cs|] == cs;
    return Ok(sets);
  }

  function SchedulingOf(t: Tables, c: SchedulingConfig): Result<Option<Scheduling>> {
    match DeprecatedSets(t, c)
    case Err(e) => Err(e)
    case Ok(deprecated) =>
      match ExpandBackupSets(t, c.backupSets)
      case Err(e) => Err(e)
      case Ok(sets) =>
        if deprecated + sets == [] then Err(Other)
        else
          match ParseInterval(c.randomMaxDelay)
          case Err(e) => Err(e)
          case Ok(delay) =>
            Ok(Some(Scheduling(deprecated + sets, c.enabled, c.maxParallelBackups, delay,
                               EnumOrZero(t.scheme, c.scheme), EnumOrZero(t.day, c.weeklyBackupDay))))
  }

  lemma {:induction false} ExpandBackupSetsFails(t: Tables, cs: seq<BackupSetConfig>, n: nat)
    requires n <= |cs| && ExpandBackupSets(t, cs[..n]).Err?
    ensures ExpandBackupSets(t, cs) == ExpandBackupSets(t, cs[..n])
    decreases |cs|
  {
    if n < |cs| {
      var front := cs[..|cs| - 1];
      assert front[..n] == cs[..n];
      ExpandBackupSetsFails(t, front, n);
    } else {
      assert cs[..n] == cs;
    }
  }

  // ---------- what a successful expansion is like ----------

  predicate TimesReadable(cs: seq<TimeConfig>) {
    cs == [] || (ParseInterval(cs[0].repeatEvery).Ok? && forall i | 0 <= i < |cs[0].repeatAt| :: ParseTimeOfDay(cs[0].repeatAt[i]).Ok?)
  }

  /** Exactly one of the two ways to schedule is given, and it can be read. */
  predicate OneWay(c: BackupSetConfig) {
    (c.executeByInterval != 0) != (c.executeByTime != []) && TimesReadable(c.executeByTime)
  }

  lemma {:induction false} ParseTimesExact(texts: seq<string>)
    ensures ParseTimes(texts).Ok? <==> forall i | 0 <= i < |texts| :: ParseTimeOfDay(texts[i]).Ok?
    ensures ParseTimes(texts).Ok? ==>
              |ParseTimes(texts).value| == |texts|
              && forall i | 0 <= i < |texts| :: Ok(ParseTimes(texts).value[i]) == ParseTimeOfDay(texts[i])
  {
    if texts != [] {
      ParseTimesExact(texts[..|texts| - 1]);
      assert forall i | 0 <= i < |texts| - 1 :: texts[..|texts| - 1][i] == texts[i];
    }
  }

  lemma ExecuteByTimeExact(t: Tables, cs: seq<TimeConfig>)
    ensures ExecuteByTime(t, cs).Ok? <==> TimesReadable(cs)
    ensures ExecuteByTime(t, cs).Ok? ==> (ExecuteByTime(t, cs).value.Some? <==> cs != [])
    ensures ExecuteByTime(t, cs).Ok? && cs != [] ==> ExecuteByTime(t, cs).value.value.ByTime?
  {
    if cs != [] {
      ParseTimesExact(cs[0].repeatAt);
    }
  }

  lemma {:induction false} BackupSetsExact(t: Tables, cs: seq<BackupSetConfig>)
    ensures ExpandBackupSets(t, cs).Ok? <==> forall i | 0 <= i < |cs| :: OneWay(cs[i])
    ensures ExpandBackupSets(t, cs).Ok? ==>
              var sets := ExpandBackupSets(t, cs).value;
              && |sets| == |cs|
              && (forall i | 0 <= i < |cs| :: Ok(sets[i]) == ExpandBackupSet(t, cs[i]) && !sets[i].setting.NoSetting?)
  {
    if cs != [] {
      var front, last := cs[..|cs| - 1], cs[|cs| - 1];
      BackupSetsExact(t, front);
      ExecuteByTimeExact(t, last.executeByTime);
      assert forall i | 0 <= i < |front| :: front[i] == cs[i];
    }
  }

  /** An expansion succeeds exactly when at most one deprecated attribute is given, each backup set is
      scheduled in exactly one way, there is at least one backup set, and times and intervals can be
      read. It then has one backup set for a deprecated attribute that is given and one for each
      configured set, each with a setting. */
  lemma SchedulingShape(t: Tables, c: SchedulingConfig)
    ensures var deprecated := (if c.executeByInterval != 0 then 1 else 0) + (if c.executeByTime != [] then 1 else 0);
            SchedulingOf(t, c).Ok? <==>
            && TimesReadable(c.executeByTime) && deprecated <= 1
            && (forall i | 0 <= i < |c.backupSets| :: OneWay(c.backupSets[i]))
            && deprecated + |c.backupSets| > 0 && ParseInterval(c.randomMaxDelay).Ok?
    ensures SchedulingOf(t, c).Ok? ==>
              && SchedulingOf(t, c).value.Some?
              && var sets := SchedulingOf(t, c).value.value.backupSets;
                 && |sets| == (if c.executeByInterval != 0 || c.executeByTime != [] then 1 else 0) + |c.backupSets|
                 && |sets| > 0 && forall i | 0 <= i < |sets| :: !sets[i].setting.NoSetting?
  {
    ExecuteByTimeExact(t, c.executeByTime);
    BackupSetsExact(t, c.backupSets);
  }

  // ---------- what it says ----------

  /** v is the number whose name is s in capitals, or 0 when there is no such name. */
  predicate Named(e: EnumTable, s: string, v: int) {
    if exists k :: k in e.names && e.names[k] == Upper(s) then v in e.names && e.names[v] == Upper(s) else v == 0
  }

  predicate DescribesRule(t: Tables, c: TimeConfig, rule: TimeRule) {
    && |rule.repeatAt| == |c.repeatAt|
    && (forall i | 0 <= i < |c.repeatAt| :: ParseTimeOfDay(c.repeatAt[i]) == Ok(rule.repeatAt[i]))
    && |rule.weekdays| == |c.weekdays|
    && (forall i | 0 <= i < |c.weekdays| :: Named(t.day, c.weekdays[i], rule.weekdays[i]))
    && ParseInterval(c.repeatEvery) == Ok(rule.repeatEvery)
    && rule.monthdays == c.monthdays && rule.months == c.months
    && rule.includeLastDayOfMonth == c.includeLastDayOfMonth && rule.runLater == c.runLater
    && Named(t.period, c.period, rule.period)
  }

  /** The one way of execution that is given is the one that is set. */
  predicate DescribesWay(t: Tables, interval: int, byTime: seq<TimeConfig>, setting: Setting) {
    match setting
    case NoSetting => false
    case SinceLastExec(delay) => byTime == [] && interval != 0 && delay == IntervalValue(Seconds, interval)
    case ByTime(rule) => interval == 0 && byTime != [] && DescribesRule(t, byTime[0], rule)
  }

  predicate DescribesSet(t: Tables, c: BackupSetConfig, bs: BackupSet) {
    DescribesWay(t, c.executeByInterval, c.executeByTime, bs.setting) && Named(t.setType, c.setType, bs.setType)
  }

  lemma NamedNumber(e: EnumTable, s: string)
    requires TableOk(e)
    ensures Named(e, s, EnumOrZero(e, s))
  {
  }

  lemma RuleContents(t: Tables, c: TimeConfig)
    requires TablesOk(t) && ExpandTimeRule(t, c).Ok?
    ensures DescribesRule(t, c, ExpandTimeRule(t, c).value)
  {
    ParseTimesExact(c.repeatAt);
    NamedNumber(t.period, c.period);
    forall i | 0 <= i < |c.weekdays|
      ensures Named(t.day, c.weekdays[i], Days(t, c.weekdays)[i])
    {
      NamedNumber(t.day, c.weekdays[i]);
    }
  }

  lemma WayContents(t: Tables, byTime: seq<TimeConfig>)
    requires TablesOk(t) && ExecuteByTime(t, byTime).Ok? && byTime != []
    ensures DescribesWay(t, 0, byTime, ExecuteByTime(t, byTime).value.value)
  {
    RuleContents(t, byTime[0]);
  }

  /** A backup set that expands says what its block says. */
  lemma SetContents(t: Tables, c: BackupSetConfig)
    requires TablesOk(t) && ExpandBackupSet(t, c).Ok?
    ensures DescribesSet(t, c, ExpandBackupSet(t, c).value)
  {
    NamedNumber(t.setType, c.setType);
    if c.executeByTime != [] {
      WayContents(t, c.executeByTime);
    }
  }

  /** A scheduling that expands says what its block says, field by field: first the deprecated setting,
      if there is one, with no type, then the configured sets in order. */
  lemma SchedulingContents(t: Tables, c: SchedulingConfig)
    requires TablesOk(t) && SchedulingOf(t, c).Ok?
    ensures var s := SchedulingOf(t, c).value.value;
            && s.enabled == c.enabled && s.maxParallelBackups == c.maxParallelBackups
            && Named(t.scheme, c.scheme, s.scheme) && Named(t.day, c.weeklyBackupDay, s.weeklyBackupDay)
            && ParseInterval(c.randomMaxDelay) == Ok(s.randMaxDelay)
            && ParseInterval(PrintInterval(s.randMaxDelay)) == Ok(s.randMaxDelay)
    ensures var sets := SchedulingOf(t, c).value.value.backupSets;
            var n := if c.executeByInterval != 0 || c.executeByTime != [] then 1 else 0;
            && |sets| == n + |c.backupSets|
            && (n == 1 ==> DescribesWay(t, c.executeByInterval, c.executeByTime, sets[0].setting) && sets[0].setType == 0)
            && forall i | 0 <= i < |c.backupSets| :: DescribesSet(t, c.backupSets[i], sets[n + i])
  {
    NamedNumber(t.scheme, c.scheme);
    NamedNumber(t.day, c.weeklyBackupDay);
    ParsedIntervalPrints(c.randomMaxDelay);
    DeprecatedContents(t, c);
    SetsContents(t, c.backupSets);
  }

  lemma DeprecatedContents(t: Tables, c: SchedulingConfig)
    requires TablesOk(t) && DeprecatedSets(t, c).Ok?
    ensures var sets := DeprecatedSets(t, c).value;
            && |sets| == (if c.executeByInterval != 0 || c.executeByTime != [] then 1 else 0)
            && (sets != [] ==>
                  DescribesWay(t, c.executeByInterval, c.executeByTime, sets[0].setting) && sets[0].setType == 0)
  {
    if c.executeByTime != [] {
      WayContents(t, c.executeByTime);
    }
  }

  lemma SetsContents(t: Tables, cs: seq<BackupSetConfig>)
    requires TablesOk(t) && ExpandBackupSets(t, cs).Ok?
    ensures |ExpandBackupSets(t, cs).value| == |cs|
    ensures forall i | 0 <= i < |cs| :: DescribesSet(t, cs[i], ExpandBackupSets(t, cs).value[i])
  {
    BackupSetsExact(t, cs);
    forall i | 0 <= i < |cs|
      ensures DescribesSet(t, cs[i], ExpandBackupSets(t, cs).value[i])
    {
      SetContents(t, cs[i]);
    }
  }

  // ---------- flattening ----------

  /** Messages as they are held: the delay is a reference, and flattening changes it. */
  datatype SettingRef = NoSettingRef | SinceLastExecRef(delay: Interval?) | ByTimeRef(rule: TimeRule)

  datatype BackupSetRef = BackupSetRef(setting: SettingRef, setType: int)

  function PrintTimes(times: seq<Option<TimeOfDay>>): (texts: seq<string>)
    ensures |texts| == |times|
    ensures forall i | 0 <= i < |times| :: texts[i] == PrintTimeOfDay(times[i])
  {
    seq(|times|, i requires 0 <= i < |times| => PrintTimeOfDay(times[i]))
  }

  function DayTexts(t: Tables, days: seq<int>): (texts: seq<string>)
    ensures |texts| == |days|
    ensures forall i | 0 <= i < |days| :: texts[i] == EnumText(t.day, days[i])
  {
    seq(|days|, i requires 0 <= i < |days| => EnumText(t.day, days[i]))
  }

  function FlattenTimeRule(t: Tables, rule: TimeRule): TimeConfig {
    TimeConfig(PrintTimes(rule.repeatAt), DayTexts(t, rule.weekdays), PrintInterval(rule.repeatEvery), rule.monthdays,
               rule.includeLastDayOfMonth, rule.months, EnumText(t.period, rule.period), rule.runLater)
  }

  function FlattenSet(t: Tables, bs: BackupSet): BackupSetConfig {
    match bs.setting
    case NoSetting => BackupSetConfig(0, [], EnumText(t.setType, bs.setType))
    case SinceLastExec(delay) => BackupSetConfig(Adjusted(delay).count, [], EnumText(t.setType, bs.setType))
    case ByTime(rule) => BackupSetConfig(0, [FlattenTimeRule(t, rule)], EnumText(t.setType, bs.setType))
  }

  /** The value of a held backup set; a nil delay has none. */
  function Held(bs: BackupSetRef): BackupSet
    reads if bs.setting.SinceLastExecRef? then {bs.setting.delay} else {}
    requires bs.setting.SinceLastExecRef? ==> bs.setting.delay != null
  {
    match bs.setting
    case NoSettingRef => BackupSet(NoSetting, bs.setType)
    case SinceLastExecRef(delay) => BackupSet(SinceLastExec(delay.View()), bs.setType)
    case ByTimeRef(rule) => BackupSet(ByTime(rule), bs.setType)
  }

  ghost function DelaysOf(bss: seq<BackupSetRef>): set<Interval> {
    set i | 0 <= i < |bss| && bss[i].setting.SinceLastExecRef? && bss[i].setting.delay != null :: bss[i].setting.delay
  }

  predicate NoNilDelay(bss: seq<BackupSetRef>) {
    forall i | 0 <= i < |bss| && bss[i].setting.SinceLastExecRef? :: bss[i].setting.delay != null
  }

  /** flattenYandexBackupPolicySchedulingBackupSet. Every delay it meets is converted to seconds in
      place, also one that several sets share; a missing delay is read through a nil pointer. */
  method FlattenBackupSets(t: Tables, bss: seq<BackupSetRef>) returns (r: Result<seq<BackupSetConfig>>)
    modifies DelaysOf(bss)
    ensures bss == [] ==> r == Err(Other)
    ensures !NoNilDelay(bss) ==> r == Err(Panic)
    ensures bss != [] && NoNilDelay(bss) ==>
              && r.Ok? && |r.value| == |bss|
              && (forall i | 0 <= i < |bss| :: r.value[i] == FlattenSet(t, old(Held(bss[i]))))
              && (forall d | d in DelaysOf(bss) :: d.View() == Adjusted(old(d.View())))
  {
    if |bss| == 0 {
      return Err(Other);
    }
    var result: seq<BackupSetConfig> := [];
    ghost var was := Values(bss);
    ghost var views := map d | d in DelaysOf(bss) :: d.View();
    ghost var seen: set<Interval> := {};
    for i := 0 to |bss|
      invariant forall j | 0 <= j < i && bss[j].setting.SinceLastExecRef? ::
                  bss[j].setting.delay != null && bss[j].setting.delay in seen
      invariant result == FlattenSets(t, was[..i])
      invariant forall d | d in DelaysOf(bss) :: d.View() == if d in seen then Adjusted(views[d]) else views[d]
    {
      if bss[i].setting.SinceLastExecRef? {
        if bss[i].setting.delay == null {
          return Err(Panic);
        }
        var d := bss[i].setting.delay;
        assert d in DelaysOf(bss) && was[i] == BackupSet(SinceLastExec(views[d]), bss[i].setType);
        assert Held(bss[i]) == BackupSet(SinceLastExec(d.View()), bss[i].setType);
        seen := seen + {d};
      }
      var c := FlattenOne(t, bss[i], was[i]);
      result := result + [c];
      assert was[..i + 1][..i] == was[..i];
    }
    assert NoNilDelay(bss) && was[..|bss|] == was;
    FlattenSetsAt(t, was);
    return Ok(result);
  }

  ghost function FlattenSets(t: Tables, sets: seq<BackupSet>): seq<BackupSetConfig> {
    if sets == [] then [] else FlattenSets(t, sets[..|sets| - 1]) + [FlattenSet(t, sets[|sets| - 1])]
  }

  lemma {:induction false} FlattenSetsAt(t: Tables, sets: seq<BackupSet>)
    ensures |FlattenSets(t, sets)| == |sets|
    ensures forall i | 0 <= i < |sets| :: FlattenSets(t, sets)[i] == FlattenSet(t, sets[i])
  {
    if sets != [] {
      FlattenSetsAt(t, sets[..|sets| - 1]);
    }
  }

  /** The values of held backup sets; one with a nil delay counts as having no setting. */
  ghost function Values(bss: seq<BackupSetRef>): (sets: seq<BackupSet>)
    reads DelaysOf(bss)
    ensures |sets| == |bss|
    ensures forall i | 0 <= i < |bss| && (bss[i].setting.SinceLastExecRef? ==> bss[i].setting.delay != null) ::
              sets[i] == Held(bss[i])
  {
    if bss == [] then []
    else
      var front, last := bss[..|bss| - 1], bss[|bss| - 1];
      assert DelaysOf(front) <= DelaysOf(bss);
      Values(front) +
      [if last.setting.SinceLastExecRef? && last.setting.delay == null then BackupSet(NoSetting, last.setType) else Held(last)]
  }

  /** `was` is the value of the set before a first flattening may have put its delay in seconds. */
  method FlattenOne(t: Tables, bs: BackupSetRef, ghost was: BackupSet) returns (c: BackupSetConfig)
    requires bs.setting.SinceLastExecRef? ==> bs.setting.delay != null
    requires Held(bs) == was || Held(bs) == InSeconds(was)
    modifies if bs.setting.SinceLastExecRef? then {bs.setting.delay} else {}
    ensures Held(bs) == InSeconds(was)
    ensures c == FlattenSet(t, was)
    ensures c.executeByInterval == if bs.setting.SinceLastExecRef? then bs.setting.delay.count else 0
  {
    if was.setting.SinceLastExec? {
      AdjustIdempotent(was.setting.delay);
    }
    c := BackupSetConfig(0, [], EnumText(t.setType, bs.setType));
    match bs.setting {
      case SinceLastExecRef(delay) =>
        var adjusted := Adjust(delay);
        c := c.(executeByInterval := adjusted.count);
      case ByTimeRef(rule) =>
        c := c.(executeByTime := [FlattenTimeRule(t, rule)]);
      case NoSettingRef =>
    }
  }

  /** A set whose delay is already in seconds flattens as it did before the delay was converted. */
  lemma FlattenAdjusted(t: Tables, bs: BackupSet)
    ensures FlattenSet(t, InSeconds(bs)) == FlattenSet(t, bs)
  {
  }

  /** The set with its delay in seconds. */
  function InSeconds(bs: BackupSet): BackupSet {
    if bs.setting.SinceLastExec? then bs.(setting := SinceLastExec(Adjusted(bs.setting.delay))) else bs
  }

  /** Flattening the same message twice gives the same result, although the first call changes it. */
  method FlattenTwice(t: Tables, bss: seq<BackupSetRef>)
    returns (first: Result<seq<BackupSetConfig>>, second: Result<seq<BackupSetConfig>>)
    modifies DelaysOf(bss)
    ensures first == second
  {
    first := FlattenBackupSets(t, bss);
    label Between:
    second := FlattenBackupSets(t, bss);
    if bss != [] && NoNilDelay(bss) {
      forall i | 0 <= i < |bss|
        ensures first.value[i] == second.value[i]
      {
        if bss[i].setting.SinceLastExecRef? {
          assert bss[i].setting.delay in DelaysOf(bss);
        }
        assert old@Between(Held(bss[i])) == InSeconds(old(Held(bss[i])));
        FlattenAdjusted(t, old(Held(bss[i])));
      }
      assert first.value == second.value;
    }
  }

  // ---------- flatten, then expand ----------

  /** The value's text reads back as the value: it has a name, or is 0. */
  predicate EnumStable(e: EnumTable, v: int) {
    v in e.names || v == 0
  }

  lemma EnumReadsBack(e: EnumTable, v: int)
    requires TableOk(e)
    ensures EnumOrZero(e, EnumText(e, v)) == v <==> EnumStable(e, v)
  {
  }

  predicate RuleStable(t: Tables, rule: TimeRule) {
    && (forall i | 0 <= i < |rule.repeatAt| :: rule.repeatAt[i].Some? ==> OnClock(rule.repeatAt[i].value))
    && (forall i | 0 <= i < |rule.weekdays| :: EnumStable(t.day, rule.weekdays[i]))
    && (rule.repeatEvery.Some? ==> Printable(rule.repeatEvery.value))
    && EnumStable(t.period, rule.period)
  }

  predicate SetStable(t: Tables, bs: BackupSet) {
    && EnumStable(t.setType, bs.setType)
    && match bs.setting
       case NoSetting => false
       case SinceLastExec(delay) => Adjusted(delay).count != 0
       case ByTime(rule) => RuleStable(t, rule)
  }

  predicate IntervalsFit(bs: BackupSet) {
    bs.setting.ByTime? && bs.setting.rule.repeatEvery.Some? ==> Fits(W64, bs.setting.rule.repeatEvery.value.count)
  }

  lemma ParseTimesGives(texts: seq<string>, times: seq<Option<TimeOfDay>>)
    requires |texts| == |times|
    ensures ParseTimes(texts) == Ok(times) <==> forall i | 0 <= i < |times| :: ParseTimeOfDay(texts[i]) == Ok(times[i])
  {
    ParseTimesExact(texts);
    if forall i | 0 <= i < |times| :: ParseTimeOfDay(texts[i]) == Ok(times[i]) {
      var got := ParseTimes(texts).value;
      forall i | 0 <= i < |times|
        ensures got[i] == times[i]
      {
        assert Ok(got[i]) == ParseTimeOfDay(texts[i]);
      }
      assert got == times;
    }
  }

  lemma PrintedTimesReadBack(times: seq<Option<TimeOfDay>>)
    ensures ParseTimes(PrintTimes(times)) == Ok(times) <==>
            forall i | 0 <= i < |times| :: times[i].Some? ==> OnClock(times[i].value)
  {
    var texts := PrintTimes(times);
    forall i | 0 <= i < |times|
      ensures ParseTimeOfDay(texts[i]) == Ok(times[i]) <==> (times[i].Some? ==> OnClock(times[i].value))
    {
      PrintedTimeReadsBack(times[i]);
    }
    ParseTimesGives(texts, times);
  }

  lemma DaysReadBack(t: Tables, days: seq<int>)
    requires TablesOk(t)
    ensures Days(t, DayTexts(t, days)) == days <==> forall i | 0 <= i < |days| :: EnumStable(t.day, days[i])
  {
  }

  lemma RuleReadsBack(t: Tables, rule: TimeRule)
    requires TablesOk(t)
    requires rule.repeatEvery.Some? ==> Fits(W64, rule.repeatEvery.value.count)
    ensures ExpandTimeRule(t, FlattenTimeRule(t, rule)) == Ok(rule) <==> RuleStable(t, rule)
  {
    PrintedTimesReadBack(rule.repeatAt);
    DaysReadBack(t, rule.weekdays);
    EnumReadsBack(t.period, rule.period);
    if rule.repeatEvery.Some? {
      PrintedIntervalReadsBack(rule.repeatEvery.value);
    }
  }

  /** Expanding a flattened backup set gives it back, its delay in seconds, exactly when the set is
      stable: it has a setting, a delay is not zero, names and times are in range. */
  lemma SetReadsBack(t: Tables, bs: BackupSet)
    requires TablesOk(t) && IntervalsFit(bs)
    ensures ExpandBackupSet(t, FlattenSet(t, bs)) == Ok(InSeconds(bs)) <==> SetStable(t, bs)
  {
    EnumReadsBack(t.setType, bs.setType);
    if bs.setting.ByTime? {
      RuleReadsBack(t, bs.setting.rule);
    }
  }

  /** The same for a whole list. */
  lemma SetsReadBack(t: Tables, sets: seq<BackupSet>, flat: seq<BackupSetConfig>)
    requires TablesOk(t) && |flat| == |sets|
    requires forall i | 0 <= i < |sets| :: IntervalsFit(sets[i]) && flat[i] == FlattenSet(t, sets[i])
    ensures ExpandBackupSets(t, flat) == Ok(seq(|sets|, i requires 0 <= i < |sets| => InSeconds(sets[i]))) <==>
            forall i | 0 <= i < |sets| :: SetStable(t, sets[i])
  {
    var expected := seq(|sets|, i requires 0 <= i < |sets| => InSeconds(sets[i]));
    BackupSetsExact(t, flat);
    forall i | 0 <= i < |sets|
      ensures ExpandBackupSet(t, flat[i]) == Ok(expected[i]) <==> SetStable(t, sets[i])
      ensures SetStable(t, sets[i]) ==> OneWay(flat[i])
    {
      SetReadsBack(t, sets[i]);
      ExecuteByTimeExact(t, flat[i].executeByTime);
    }
    if ExpandBackupSets(t, flat).Ok? {
      var got := ExpandBackupSets(t, flat).value;
      assert got == expected <==> forall i | 0 <= i < |sets| :: got[i] == expected[i];
    }
  }
}
