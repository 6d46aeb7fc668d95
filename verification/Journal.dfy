/** The journal's documents for one session, as the capture and curation verbs read and write them. */
module Journal {
  import opened Wrappers
  import opened Clock

  datatype Fingerprint = Fingerprint(lines: nat, sha: string)

  /** What a source reports of one capture. */
  datatype Facts = Facts(lastActiveAt: Time, substantive: bool, incomplete: bool, transcript: Fingerprint)

  /** session.json; project None is a session no clone resolved for. */
  datatype Session = Session(facts: Facts, capturedAt: Time, project: Option<string>)
}
