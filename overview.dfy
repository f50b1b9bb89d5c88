/**
 * The overview synthesiser: a placeholder description for a hypothetical film,
 * drawn from a fixed table of templates keyed by the primary genre.
 */
module Overview {
  import opened Text

  /** Templates per genre; every genre of the table has this many. */
  const TemplatesPerGenre: nat := 3

  /** The `GENRE_TEMPLATES` table. */
  const GenreTemplates: map<string, seq<string>> := map[
    "Action" := [
      "An explosive action thriller featuring intense combat sequences and high-stakes missions. The hero must overcome impossible odds to save the day.",
      "A high-octane adventure with breathtaking stunts, car chases, and epic battle scenes that will keep you on the edge of your seat.",
      "Non-stop action as an elite team faces dangerous enemies in a race against time to prevent global catastrophe."
    ],
    "Comedy" := [
      "A hilarious comedy that follows quirky characters through laugh-out-loud situations and unexpected mishaps.",
      "A heartwarming and funny story about life, love, and the absurdities we all face in our daily adventures.",
      "Comedy gold with witty dialogue, memorable characters, and situations that will have you laughing from start to finish."
    ],
    "Drama" := [
      "A powerful drama exploring complex human emotions, relationships, and life-changing decisions.",
      "An emotional journey through triumph and tragedy, examining the depths of the human experience.",
      "A thought-provoking story about family, love, loss, and the resilience of the human spirit."
    ],
    "Horror" := [
      "A terrifying horror experience with spine-chilling moments and supernatural threats lurking in every shadow.",
      "Pure terror as unsuspecting victims face unspeakable horrors in this nightmare-inducing thriller.",
      "A frightening tale of survival against malevolent forces that will haunt your dreams."
    ],
    "Romance" := [
      "A beautiful love story about two souls finding each other against all odds in this heartfelt romance.",
      "Romance blooms in unexpected ways as two people discover the transformative power of true love.",
      "A passionate tale of love, heartbreak, and second chances that will touch your heart."
    ],
    "Science Fiction" := [
      "A mind-bending sci-fi adventure exploring futuristic technology, space travel, and the boundaries of human potential.",
      "Journey to distant galaxies and alternate realities in this thrilling science fiction epic.",
      "An imaginative exploration of advanced technology, artificial intelligence, and humanity's future among the stars."
    ],
    "Thriller" := [
      "A pulse-pounding thriller with unexpected twists, psychological tension, and edge-of-your-seat suspense.",
      "Mystery and danger collide in this gripping thriller that will keep you guessing until the final reveal.",
      "A suspenseful cat-and-mouse game where every decision could mean life or death."
    ],
    "Fantasy" := [
      "An epic fantasy adventure in a magical world filled with mythical creatures, ancient prophecies, and heroic quests.",
      "Journey through enchanted realms where magic is real and destiny awaits those brave enough to seek it.",
      "A fantastical tale of wizards, warriors, and wonder in a realm beyond imagination."
    ],
    "Adventure" := [
      "An exciting adventure across exotic locations, filled with danger, discovery, and unforgettable experiences.",
      "Join brave explorers on a thrilling quest for treasure, glory, and the adventure of a lifetime.",
      "An epic journey through uncharted territories where courage and determination are tested at every turn."
    ]
  ]

  /** The sentence used when the primary genre is not in the table. */
  const Fallback: string :=
    "An engaging film that combines multiple genres to create a unique and entertaining cinematic experience."

  /** Every genre of the table offers exactly `TemplatesPerGenre` templates. */
  lemma TableShape()
    ensures forall g :: g in GenreTemplates ==> |GenreTemplates[g]| == TemplatesPerGenre
  {
  }

  /**
   * The primary genre: the first comma-separated entry, stripped. Python's
   * `split` never yields an empty list, so the source's `'Drama'` default for
   * an empty list is never taken.
   */
  function MainGenre(genreInput: string): (g: string)
    ensures ',' !in g
    ensures g == [] || (!IsSpace(g[0]) && !IsSpace(g[|g| - 1]))
  {
    Trim(Split(genreInput, ',')[0])
  }

  /**
   * `generate_overview`: one of the primary genre's templates, the one at
   * position `pick` (the outcome of `random.choice`), or the fallback sentence
   * for a genre outside the table.
   */
  function GenerateOverview(genreInput: string, pick: nat): (text: string)
    requires pick < TemplatesPerGenre
    ensures MainGenre(genreInput) in GenreTemplates ==> text in GenreTemplates[MainGenre(genreInput)]
    ensures MainGenre(genreInput) !in GenreTemplates ==> text == Fallback
  {
    var g := MainGenre(genreInput);
    if g in GenreTemplates then
      TableShape();
      GenreTemplates[g][pick]
    else
      Fallback
  }

  /** No template of the table is the fallback sentence. */
  lemma FallbackIsNoTemplate()
    ensures forall g :: g in GenreTemplates ==> Fallback !in GenreTemplates[g]
  {
  }

  /** The fallback sentence is produced exactly for primary genres outside the table. */
  lemma FallbackExactlyForUnknownGenres(genreInput: string, pick: nat)
    requires pick < TemplatesPerGenre
    ensures GenerateOverview(genreInput, pick) == Fallback <==> MainGenre(genreInput) !in GenreTemplates
  {
    FallbackIsNoTemplate();
  }

  /** Only the first comma-separated entry decides the overview. */
  lemma {:induction false} OnlyFirstEntryMatters(first: string, others: string, pick: nat)
    requires ',' !in first
    requires pick < TemplatesPerGenre
    ensures MainGenre(first + [','] + others) == Trim(first)
    ensures GenerateOverview(first + [','] + others, pick) == GenerateOverview(first, pick)
  {
    SplitAfterPiece(first, others, ',');
    SplitWithoutSeparator(first, ',');
  }

  /** A request for `"Action"` gets one of the Action templates. */
  lemma ActionRequestGetsActionTemplate(pick: nat)
    requires pick < TemplatesPerGenre
    ensures GenerateOverview("Action", pick) in GenreTemplates["Action"]
  {
    SplitWithoutSeparator("Action", ',');
    TrimFixesTrimmed("Action");
  }
}
