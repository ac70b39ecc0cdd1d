/** The filter bar above a board: it edits a filter specification (labels, members, one
    due-date bucket, search text) and hands the new specification to its parent
    (src/components/FilterBar.jsx). Applying the specification to cards happens elsewhere. */
module FilterBar {
  import opened Common

  /** The three due-date choices of the dropdown. */
  datatype DueBucket = Overdue | Today | Tomorrow

  /** `activeFilters`: missing values are "" and None. */
  datatype FilterSpec = FilterSpec(
    labels: seq<string>,
    members: seq<string>,
    dueDate: Option<DueBucket>,
    search: string)

  /** The specification `clearAllFilters` sends, which is also the default of `activeFilters`. */
  const NoFilters: FilterSpec := FilterSpec([], [], None, "")

  /** `handleLabelToggle`: only the label list changes, by the toggle rule. */
  function LabelToggled(f: FilterSpec, tag: string): (r: FilterSpec)
    ensures r.labels == Toggle(f.labels, tag)
    ensures r.members == f.members && r.dueDate == f.dueDate && r.search == f.search
  {
    f.(labels := Toggle(f.labels, tag))
  }

  /** `handleMemberToggle`: only the member list changes, by the toggle rule. */
  function MemberToggled(f: FilterSpec, memberId: string): (r: FilterSpec)
    ensures r.members == Toggle(f.members, memberId)
    ensures r.labels == f.labels && r.dueDate == f.dueDate && r.search == f.search
  {
    f.(members := Toggle(f.members, memberId))
  }

  /** `handleDueDateSelect`: choosing the active bucket clears it, any other replaces it. */
  function DueDateSelected(f: FilterSpec, bucket: DueBucket): (r: FilterSpec)
    ensures f.dueDate == Some(bucket) ==> r.dueDate == None
    ensures f.dueDate != Some(bucket) ==> r.dueDate == Some(bucket)
    ensures r.labels == f.labels && r.members == f.members && r.search == f.search
  {
    f.(dueDate := if f.dueDate == Some(bucket) then None else Some(bucket))
  }

  /** `handleSearchChange`: only the search text changes. */
  function SearchChanged(f: FilterSpec, text: string): (r: FilterSpec)
    ensures r.search == text
    ensures r.labels == f.labels && r.members == f.members && r.dueDate == f.dueDate
  {
    f.(search := text)
  }

  /** `hasActiveFilters`, the truthiness of
      `labels.length > 0 || members.length > 0 || dueDate || search`: some filter is active
      exactly when the specification differs from the cleared one. */
  function HasActiveFilters(f: FilterSpec): (r: bool)
    ensures r <==> f != NoFilters
    ensures r <==> f.labels != [] || f.members != [] || f.dueDate != None || f.search != ""
  {
    |f.labels| > 0 || |f.members| > 0 || f.dueDate.Some? || f.search != ""
  }

  /** Toggling a label that was not selected, twice, gives the specification back. */
  lemma LabelToggleTwice(f: FilterSpec, tag: string)
    requires tag !in f.labels
    ensures LabelToggled(LabelToggled(f, tag), tag) == f
  {
    ToggleTwiceAbsent(f.labels, tag);
  }

  /** Toggling a member that was not selected, twice, gives the specification back. */
  lemma MemberToggleTwice(f: FilterSpec, memberId: string)
    requires memberId !in f.members
    ensures MemberToggled(MemberToggled(f, memberId), memberId) == f
  {
    ToggleTwiceAbsent(f.members, memberId);
  }

  /** Selecting the same bucket twice restores the specification when no other bucket was
      active before; otherwise the second selection clears the filter. */
  lemma DueDateSelectTwice(f: FilterSpec, bucket: DueBucket)
    ensures f.dueDate == None || f.dueDate == Some(bucket) ==>
      DueDateSelected(DueDateSelected(f, bucket), bucket) == f
    ensures f.dueDate != None && f.dueDate != Some(bucket) ==>
      DueDateSelected(DueDateSelected(f, bucket), bucket) == f.(dueDate := None)
  {
  }

  /** `getMemberName`: the name, else the part of the e-mail before '@', else 'Unknown'
      (an e-mail starting with '@' also gives 'Unknown', because `||` skips the empty part). */
  function MemberName(name: string, email: string): (r: string)
    ensures r != ""
    ensures name != "" ==> r == name
    ensures name == "" && BeforeFirst(email, '@') != "" ==> r == BeforeFirst(email, '@')
    ensures name == "" && BeforeFirst(email, '@') == "" ==> r == "Unknown"
  {
    Or(name, Or(if email != "" then Split(email, '@')[0] else "", "Unknown"))
  }
}
