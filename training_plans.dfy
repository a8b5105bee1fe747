/**
 * The training plans page of the prototype client: the search over the
 * fixed sample programs and the selected program's detail card.
 */
module TrainingPlans {
  import opened Wrappers
  import Seqs
  import Text

  /** A sample program, with the fields the page reads. */
  datatype TrainingProgram = TrainingProgram(id: string, name: string, targetGroup: string)

  /** The search: a case-insensitive part of the name or of the target group. */
  predicate Matches(p: TrainingProgram, searchTerm: string) {
    Text.IncludesIgnoringCase(p.name, searchTerm) || Text.IncludesIgnoringCase(p.targetGroup, searchTerm)
  }

  /** `filteredPrograms`: the programs the search matches, in their order. */
  function FilteredPrograms(programs: seq<TrainingProgram>, searchTerm: string): (r: seq<TrainingProgram>)
    ensures forall p :: p in r <==> p in programs && Matches(p, searchTerm)
    ensures Seqs.IsSubseq(r, programs)
  {
    var keep := (p: TrainingProgram) => Matches(p, searchTerm);
    assert Seqs.IsSubseq(Seqs.Filter(programs, keep), programs) by { Seqs.FilterIsSubseq(programs, keep); }
    Seqs.Filter(programs, keep)
  }

  /** The empty search lists every program, in order. */
  lemma EmptySearchKeepsAll(programs: seq<TrainingProgram>)
    ensures FilteredPrograms(programs, "") == programs
  {
    forall i | 0 <= i < |programs|
      ensures Matches(programs[i], "")
    {
      Text.IncludesIgnoringCaseEmpty(programs[i].name);
    }
    Seqs.FilterKeepsAll(programs, (p: TrainingProgram) => Matches(p, ""));
  }

  /** The page's two state cells. */
  class TrainingPlansView {
    var searchTerm: string
    var selectedProgram: Option<TrainingProgram>

    constructor()
      ensures searchTerm == "" && selectedProgram.None?
    {
      searchTerm := "";
      selectedProgram := None;
    }

    /** The detail card renders exactly while a program is selected. */
    predicate DetailShown()
      reads this
    {
      selectedProgram.Some?
    }

    /** The "no plans" card renders exactly when the search leaves no program. */
    predicate NoPlansShown(programs: seq<TrainingProgram>)
      reads this
    {
      FilteredPrograms(programs, searchTerm) == []
    }

    /** `handleSelectProgram`. */
    method SelectProgram(p: TrainingProgram)
      modifies this
      ensures selectedProgram == Some(p) && DetailShown()
      ensures searchTerm == old(searchTerm)
    {
      selectedProgram := Some(p);
    }

    /** `closeTrainingProgramDetail`. */
    method Close()
      modifies this
      ensures selectedProgram.None? && !DetailShown()
      ensures searchTerm == old(searchTerm)
    {
      selectedProgram := None;
    }

    /** Typing in the search box: the selection stays, even when the search hides it. */
    method SetSearchTerm(term: string)
      modifies this
      ensures searchTerm == term
      ensures selectedProgram == old(selectedProgram)
      ensures DetailShown() == old(DetailShown())
    {
      searchTerm := term;
    }
  }

  /** Clearing the search shows the "no plans" card only when there are no programs at all. */
  lemma NoPlansOnlyWhenEmpty(view: TrainingPlansView, programs: seq<TrainingProgram>)
    requires view.searchTerm == ""
    ensures view.NoPlansShown(programs) <==> programs == []
  {
    EmptySearchKeepsAll(programs);
  }
}
