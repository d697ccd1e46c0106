/**
 * The recommendation letters (src/data/recommendationsData.ts) and the
 * filter that picks the letters linked to a journey stop.
 */
module Letters {
  import opened Strings

  datatype Letter = Letter(
    id: string,
    recommenderName: string,
    recommenderTitle: string,
    date: string,
    body: string,
    snippet: string,
    pdfUrl: Option<string>,
    relatedStopId: Option<string>,
    relatedStopIds: Option<seq<string>>)

  const Recommendations: seq<Letter> := [
    Letter(
      "recommendation-1",
      "Wren Priest",
      "Software Engineer II, Amazon",
      "2025-11-10",
      Body1,
      "With Lerdi's leadership and strong technical vision, the team earned second place in the program",
      Some("/Recommendation Letter for Lerdi Salihi.pdf"),
      Some("prishtina"),
      None),
    Letter(
      "recommendation-2",
      "Floris Maathuis",
      "Coordinator, Lecturer and Coach, Minor Future of Technology and Society, Hanze University",
      "2023",
      Body2,
      "Talented, enthusiastic and creative student with a great drive towards meaningful results",
      Some("/Lerdi letter of recommendation.pdf"),
      Some("netherlands"),
      None),
    Letter(
      "recommendation-3",
      "Nick Lumatalale",
      "Senior Lecturer, Hanze University of Applied Sciences, Minor Future of Technology and Society",
      "2025-02-10",
      Body3,
      "Intelligent student with excellent analytical and communication skills, open to stepping out of his comfort zone",
      Some("/Recommandation1.pdf"),
      Some("netherlands"),
      None)
  ]

  /** The full text of letter 1. */
  const Body1: string := "To Whom It May Concern,\nI am writing to provide a professional recommendation for Lerdi Salihi. I served as a mentor for\nLerdi's team when he participated in the global 2025 Amazon University Engagement Program.\nDuring the program, I provided technical guidance to Lerdi and his team as they developed a\nfull-stack web application for appointment scheduling and management. The team architected\nand built a front-end, serverless back-end, SQL database, and an AI/LLM scheduling assistant.\nWith Lerdi's leadership and strong technical vision, the team earned second place in the\nprogram during the final awards ceremony. This was no small feat considering more than 50\ninternational teams participated in the program!\nThrough our weekly check-ins and regular emails, I noticed Lerdi's leadership. He directed the\nteam, and he did an excellent job presenting and communicating the project's technical merits.\nHe takes an iterative yet proactive approach to technical communication. When Lerdi worked\nwith me to create a high-level system design diagram, he was quick to incorporate feedback into\nfuture revisions. He seeks out competing perspectives which is a valuable trait in any field.\nHis strongest traits may be his perseverance and resiliency. Whenever problems occurred, Lerdi\nwas quick to devise a solution with the team. When some team members dropped from the\nprogram for personal reasons, he reaffirmed his commitment to completing the program and\nhis team's project. The project would not have succeeded without his perseverance.\nIn summary, Lerdi is a capable and responsive leader. He handled pressure well and delivered a\nsuccessful project. I am confident he would be a valuable asset to any team. I give Lerdi my\nprofessional recommendation.\nPlease feel free to contact me if you require additional information.\nSincerely,\nWren Priest\nSoftware Engineer II, Amazon"

  /** The full text of letter 2. */
  const Body2: string := "Letter of recommendation for Lerdi Salihi\n\nDear,\n\nThe past semester I have guided Lerdi as an exchange student in the Minor Future of Technology and Society (FTS) at Hanze University of applied sciences in Groningen.\n\nWith a group of students we explored the future, in a multidisciplinary, international environment where students interacted with different stakeholders and other disciplines across the Hanze. Students formed their own vision on the future of the chosen topic and created creative and artistic concepts and technical prototypes to address societal challenges of the future.\n\nDuring this semester I have get to know Lerdi as a talented, enthusiastic and creative student with a great drive to move forward towards meaningful results. Besides that he is also a team player that involves and inspires the project groups he worked in to together get to the best end result. In this process he is not afraid to think and act out of the box and take other on this path with him.\n\nWhat I value a lot in Lerdi is the amazing number of creative ideas he generates and his drive to also actually build these ideas. With his group, together with the Province of Groningen he created a prototype to more involve young people into local democracy by representing societal problems as monsters that can be tagged and fought together. A very clever and creative merging of democracy and Pok\U{E9}mon Go. In this process he learned a lot of new skills, like 3D design, SCRUM, different communication forms and building augmented reality applications.\n\nOne of the best memories I have of the past semester is Lerdi playing a mad scientist to make the audience engage a speculative direct democracy concept they came up with, stealing the hearts of the audience. Showing that het dares to stand up and do an extra step outside his comfort zone to learn new things and engage other people.\n\nTo conclude, I would recommend Lerdi for any environment, organization or company where result driven creative thinking, concepting and creation is important and where being a team player and exploring new possibilities are key value. I'm convinced that you will love working with him!\n\nWith kind regards,\n\nFloris Maathuis\nCoordinator, lecturer and coach\nMinor Future of Technology and Society, Creative Media and Game Technologies Program, Hanze University of applied sciences, Groningen, The Netherlands"

  /** The full text of letter 3. */
  const Body3: string := "To Whom It May Concern,\n\nI am writing to lend my support for Lerdi Salihi to further his studies at your institute.\n\nI highly recommend Lerdi because he is an intelligent student. He has demonstrated the ability to work with various methods of futures thinking, considering different perspectives and coming up with original, novel ideas. Through various assignments in my course, Lerdi delved into sense-making and futures literacy. By questioning existing assumptions, including his own, he learned what it means to create and develop for emergence.\n\nFurthermore, Lerdi is solid, self-disciplined, and shows a high eagerness to learn. He is open to stepping out of his comfort zone, for instance, by applying insights from other domains such as philosophy and technology.\n\nMoreover, I have found Lerdi to be a student with excellent analytical and communication skills, both in speech and writing.\n\nLast but not least, Lerdi is a pleasure to work with.\n\nShould you have any questions, please do not hesitate to contact me via email or phone: n.b.o.lumatalale@pl.hanze.nl, +31 50-595 5483.\n\nSincerely,\n\nNick Lumatalale\nSenior Lecturer Hanze UAS\nBSc Creative Media & Game Technologies\nMinor Future of Technology and Society"

  /** The letter is linked to the stop, by its single stop id or its list of stop ids. */
  predicate RelatedTo(letter: Letter, stopId: string)
  {
    || letter.relatedStopId == Some(stopId)
    || (letter.relatedStopIds.Some? && stopId in letter.relatedStopIds.value)
  }

  /** `letters` is `all` with some elements left out, order kept. */
  predicate IsSubsequence<T(==)>(letters: seq<T>, all: seq<T>)
  {
    if letters == [] then true
    else if all == [] then false
    else if letters[0] == all[0] then IsSubsequence(letters[1..], all[1..])
    else IsSubsequence(letters, all[1..])
  }

  /** `letters.filter(related to stopId)`. */
  function LettersForStop(letters: seq<Letter>, stopId: string): (r: seq<Letter>)
    ensures forall l :: l in r ==> l in letters && RelatedTo(l, stopId)
    ensures forall l :: l in letters && RelatedTo(l, stopId) ==> l in r
    ensures IsSubsequence(r, letters)
  {
    if letters == [] then []
    else
      var rest := LettersForStop(letters[1..], stopId);
      if RelatedTo(letters[0], stopId) then [letters[0]] + rest
      else
        SubsequenceOfTail(rest, letters);
        rest
  }

  lemma SubsequenceOfTail<T>(r: seq<T>, all: seq<T>)
    requires all != [] && IsSubsequence(r, all[1..])
    ensures IsSubsequence(r, all)
  {
    if r != [] && r[0] == all[0] {
      SubsequenceDropFirst(r, all[1..]);
    }
  }

  lemma {:induction false} SubsequenceDropFirst<T>(r: seq<T>, all: seq<T>)
    requires r != [] && IsSubsequence(r, all)
    ensures IsSubsequence(r[1..], all)
  {
    if all != [] {
      if r[0] == all[0] {
        SubsequenceOfTail(r[1..], all);
      } else {
        SubsequenceDropFirst(r, all[1..]);
        SubsequenceOfTail(r[1..], all);
      }
    }
  }

  /** `getRecommendationsForStop`. */
  function RecommendationsForStop(stopId: string): (r: seq<Letter>)
    ensures forall l :: l in r <==> l in Recommendations && RelatedTo(l, stopId)
    ensures IsSubsequence(r, Recommendations)
  {
    LettersForStop(Recommendations, stopId)
  }

  /** `recommendations.find((r) => r.id === id)`: the first letter with that id. */
  function FindLetter(id: string): (r: Option<Letter>)
    ensures r.Some? ==> r.value in Recommendations && r.value.id == id
    ensures r.None? <==> forall l :: l in Recommendations ==> l.id != id
  {
    FindById(Recommendations, id)
  }

  function FindById(letters: seq<Letter>, id: string): (r: Option<Letter>)
    ensures r.Some? ==> r.value in letters && r.value.id == id
    ensures r.None? <==> forall l :: l in letters ==> l.id != id
  {
    if letters == [] then None
    else if letters[0].id == id then Some(letters[0])
    else FindById(letters[1..], id)
  }

  /** The letter ids are pairwise distinct, so a lookup by id is unambiguous. */
  lemma LetterIdsDistinct()
    ensures forall i, j :: 0 <= i < j < |Recommendations| ==> Recommendations[i].id != Recommendations[j].id
  {
    DiffersAt("recommendation-1", "recommendation-2", 15);
    DiffersAt("recommendation-1", "recommendation-3", 15);
    DiffersAt("recommendation-2", "recommendation-3", 15);
  }

  /** The filter over a three-letter list, letter by letter. */
  lemma FilterThree(rs: seq<Letter>, stopId: string)
    requires |rs| == 3
    ensures LettersForStop(rs, stopId) ==
      (if RelatedTo(rs[0], stopId) then [rs[0]] else []) +
      (if RelatedTo(rs[1], stopId) then [rs[1]] else []) +
      (if RelatedTo(rs[2], stopId) then [rs[2]] else [])
  {
    assert rs[1..][1..][1..] == [];
    assert rs[1..][1..] == [rs[2]];
    assert LettersForStop(rs[1..][1..][1..], stopId) == [];
    assert LettersForStop(rs[1..][1..], stopId) == (if RelatedTo(rs[2], stopId) then [rs[2]] else []);
    assert LettersForStop(rs[1..], stopId) == (if RelatedTo(rs[1], stopId) then [rs[1]] else []) + LettersForStop(rs[1..][1..], stopId);
  }

  /** The stop filter on three letters tied to `prishtina`, `netherlands` and `netherlands` in that order. */
  lemma FilterByStops(rs: seq<Letter>, stopId: string)
    requires |rs| == 3
    requires rs[0].relatedStopId == Some("prishtina") && rs[0].relatedStopIds == None
    requires rs[1].relatedStopId == Some("netherlands") && rs[1].relatedStopIds == None
    requires rs[2].relatedStopId == Some("netherlands") && rs[2].relatedStopIds == None
    ensures stopId == "netherlands" ==> LettersForStop(rs, stopId) == [rs[1], rs[2]]
    ensures stopId == "prishtina" ==> LettersForStop(rs, stopId) == [rs[0]]
    ensures stopId != "netherlands" && stopId != "prishtina" ==> LettersForStop(rs, stopId) == []
  {
    FilterThree(rs, stopId);
    DiffersAt("netherlands", "prishtina", 0);
  }

  /** The stop filter on the letters as they stand. */
  lemma StopsOfTheLetters(stopId: string)
    ensures stopId == "netherlands" ==> RecommendationsForStop(stopId) == [Recommendations[1], Recommendations[2]]
    ensures stopId == "prishtina" ==> RecommendationsForStop(stopId) == [Recommendations[0]]
    ensures stopId != "netherlands" && stopId != "prishtina" ==> RecommendationsForStop(stopId) == []
  {
    FilterByStops(Recommendations, stopId);
  }
}
