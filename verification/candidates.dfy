/** The three candidates of the paired receiving experiment. */
module Candidates {
  datatype Candidate = RulesCandidate | SingleCandidate | GraphCandidate
}
