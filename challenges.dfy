/**
 * The challenge list: the language filter kept in step with the selection,
 * and the fixed sample challenges shown when the filtered list is empty.
 */
module Challenges {
  datatype Challenge = Challenge(id: string, title: string, description: string, difficulty: string, language: string, xpReward: int)

  /** The challenges of one language, in their fetched order. */
  function OfLanguage(challenges: seq<Challenge>, language: string): (r: seq<Challenge>)
    ensures |r| <= |challenges|
    ensures forall k | 0 <= k < |r| :: r[k].language == language
  {
    if challenges == [] then []
    else if challenges[0].language == language then [challenges[0]] + OfLanguage(challenges[1..], language)
    else OfLanguage(challenges[1..], language)
  }

  /** The list the filter effect stores for the selected language. */
  function Filtered(challenges: seq<Challenge>, selected: string): seq<Challenge> {
    if selected == "all" then challenges else OfLanguage(challenges, selected)
  }

  const Samples: seq<Challenge> := [
    Challenge("sample-1", "Password Cracker",
      "Write a Python script to crack a simple password hash using common passwords", "Beginner", "python", 50),
    Challenge("sample-2", "Port Scanner",
      "Create a basic port scanner that checks common ports on a target IP", "Intermediate", "python", 100),
    Challenge("sample-3", "Log Parser",
      "Parse web server logs and extract suspicious IP addresses", "Beginner", "bash", 50),
    Challenge("sample-4", "SQL Injection Detector",
      "Build a function that detects potential SQL injection patterns in user input", "Advanced", "javascript", 150),
    Challenge("sample-5", "Caesar Cipher",
      "Implement a Caesar cipher encoder and decoder", "Beginner", "python", 50),
    Challenge("sample-6", "Base64 Decoder",
      "Create a script that decodes Base64 encoded strings", "Beginner", "bash", 50)
  ]

  /** `displayChallenges`. */
  function Display(filtered: seq<Challenge>): seq<Challenge> {
    if |filtered| > 0 then filtered else Samples
  }

  /** 'all' shows every fetched challenge. */
  lemma AllShowsEverything(challenges: seq<Challenge>)
    ensures Filtered(challenges, "all") == challenges
  {
  }

  /** Filtering a concatenation filters each part: the fetched order is kept. */
  lemma {:induction false} OfLanguageAppend(a: seq<Challenge>, b: seq<Challenge>, language: string)
    ensures OfLanguage(a + b, language) == OfLanguage(a, language) + OfLanguage(b, language)
    decreases |a|
  {
    if a == [] {
      assert a + b == b;
    } else {
      assert (a + b)[1..] == a[1..] + b;
      OfLanguageAppend(a[1..], b, language);
    }
  }

  /** A language's list holds each matching challenge as often as the fetched list does, and no other. */
  lemma {:induction false} OfLanguageCounts(challenges: seq<Challenge>, language: string, c: Challenge)
    ensures multiset(OfLanguage(challenges, language))[c] == if c.language == language then multiset(challenges)[c] else 0
    decreases |challenges|
  {
    if challenges != [] {
      assert challenges == [challenges[0]] + challenges[1..];
      OfLanguageCounts(challenges[1..], language, c);
    }
  }

  /** Exactly the challenges of the selected language are shown, other than for 'all'. */
  lemma FilterIsExact(challenges: seq<Challenge>, selected: string)
    requires selected != "all"
    ensures forall c :: c in Filtered(challenges, selected) <==> c in challenges && c.language == selected
  {
    forall c ensures c in Filtered(challenges, selected) <==> c in challenges && c.language == selected {
      OfLanguageCounts(challenges, selected, c);
    }
  }

  /** The page never shows an empty list, so its "No challenges found" branch cannot be reached. */
  lemma DisplayNeverEmpty(filtered: seq<Challenge>)
    ensures |Display(filtered)| > 0
    ensures filtered != [] ==> Display(filtered) == filtered
  {
  }

  /** When nothing matches, the six samples are shown unfiltered, so some of them are of another language. */
  lemma SamplesIgnoreTheFilter(challenges: seq<Challenge>, selected: string)
    requires selected != "all"
    requires forall k | 0 <= k < |challenges| :: challenges[k].language != selected
    ensures Display(Filtered(challenges, selected)) == Samples
    ensures exists k | 0 <= k < |Samples| :: Samples[k].language != selected
  {
    FilterIsExact(challenges, selected);
    if |OfLanguage(challenges, selected)| > 0 {
      assert OfLanguage(challenges, selected)[0] in OfLanguage(challenges, selected);
    }
    if selected == "python" {
      assert Samples[2].language == "bash";
    } else {
      assert Samples[0].language == "python";
    }
  }
}
