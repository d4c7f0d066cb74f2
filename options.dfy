/** Serialization options (options.go): a record with value-copy builders.
    Besides the fields options.go declares, the record carries MaxDepth and
    DisableCircularCheck, which the traversal reads, with the builders
    WithMaxDepth and WithDisableCircularCheck that callers use to set them. */
module Config {

  /** GroupMode is a Go `int`; only its two named constants have a meaning. */
  type GroupMode = int
  const GroupModeOr: GroupMode := 0
  const GroupModeAnd: GroupMode := 1

  /** The depth limit the default options use. */
  const DefaultMaxDepth := 32

  datatype Options = Options(
    groupMode: GroupMode,
    topLevelKey: string,
    tagKey: string,
    useInterfaceForNested: bool,
    nullIfEmpty: bool,
    ignoreNilPointers: bool,
    maxDepth: int,
    disableCircularCheck: bool)
  {
    function WithTopLevelKey(key: string): (o: Options)
      ensures o.topLevelKey == key && o.(topLevelKey := topLevelKey) == this
    {
      this.(topLevelKey := key)
    }

    function WithGroupMode(mode: GroupMode): (o: Options)
      ensures o.groupMode == mode && o.(groupMode := groupMode) == this
    {
      this.(groupMode := mode)
    }

    function WithTagKey(key: string): (o: Options)
      ensures o.tagKey == key && o.(tagKey := tagKey) == this
    {
      this.(tagKey := key)
    }

    /** Enabling NullIfEmpty switches IgnoreNilPointers off; disabling it
        leaves IgnoreNilPointers as it was. No other field changes. */
    function WithNullIfEmpty(enable: bool): (o: Options)
      ensures o.nullIfEmpty == enable
      ensures enable ==> !o.ignoreNilPointers
      ensures !enable ==> o.ignoreNilPointers == ignoreNilPointers
      ensures o.(nullIfEmpty := nullIfEmpty, ignoreNilPointers := ignoreNilPointers) == this
    {
      var o := this.(nullIfEmpty := enable);
      if enable then o.(ignoreNilPointers := false) else o
    }

    function WithIgnoreNilPointers(enable: bool): (o: Options)
      ensures o.ignoreNilPointers == enable && o.(ignoreNilPointers := ignoreNilPointers) == this
    {
      this.(ignoreNilPointers := enable)
    }

    function WithUseInterfaceForNested(enable: bool): (o: Options)
      ensures o.useInterfaceForNested == enable && o.(useInterfaceForNested := useInterfaceForNested) == this
    {
      this.(useInterfaceForNested := enable)
    }

    function WithMaxDepth(depth: int): (o: Options)
      ensures o.maxDepth == depth && o.(maxDepth := maxDepth) == this
    {
      this.(maxDepth := depth)
    }

    function WithDisableCircularCheck(disable: bool): (o: Options)
      ensures o.disableCircularCheck == disable && o.(disableCircularCheck := disableCircularCheck) == this
    {
      this.(disableCircularCheck := disable)
    }
  }

  /** DefaultOptions: OR mode, no top-level key, tag key "groups", nil
      pointers ignored, empty values omitted rather than null, depth limit 32,
      cycle check on. */
  function DefaultOptions(): (o: Options)
    ensures o.groupMode == GroupModeOr && o.topLevelKey == "" && o.tagKey == "groups"
    ensures !o.useInterfaceForNested && !o.nullIfEmpty && o.ignoreNilPointers
    ensures o.maxDepth == DefaultMaxDepth && !o.disableCircularCheck
  {
    Options(GroupModeOr, "", "groups", false, false, true, DefaultMaxDepth, false)
  }

  /** Applying a builder twice with the same argument is the same as once. */
  lemma BuildersIdempotent(o: Options, s: string, m: GroupMode, b: bool, d: int)
    ensures o.WithTopLevelKey(s).WithTopLevelKey(s) == o.WithTopLevelKey(s)
    ensures o.WithGroupMode(m).WithGroupMode(m) == o.WithGroupMode(m)
    ensures o.WithTagKey(s).WithTagKey(s) == o.WithTagKey(s)
    ensures o.WithNullIfEmpty(b).WithNullIfEmpty(b) == o.WithNullIfEmpty(b)
    ensures o.WithIgnoreNilPointers(b).WithIgnoreNilPointers(b) == o.WithIgnoreNilPointers(b)
    ensures o.WithUseInterfaceForNested(b).WithUseInterfaceForNested(b) == o.WithUseInterfaceForNested(b)
    ensures o.WithMaxDepth(d).WithMaxDepth(d) == o.WithMaxDepth(d)
    ensures o.WithDisableCircularCheck(b).WithDisableCircularCheck(b) == o.WithDisableCircularCheck(b)
  {
  }

  /** Builder order matters: IgnoreNilPointers set after NullIfEmpty stays set,
      while NullIfEmpty set afterwards switches it off again. The coupling is
      therefore not an invariant of Options. */
  lemma NullIfEmptyOrder(o: Options)
    ensures var a := o.WithNullIfEmpty(true).WithIgnoreNilPointers(true);
            a.nullIfEmpty && a.ignoreNilPointers
    ensures var b := o.WithIgnoreNilPointers(true).WithNullIfEmpty(true);
            b.nullIfEmpty && !b.ignoreNilPointers
  {
  }
}
