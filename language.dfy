/** The interface language (src/shared/providers/LanguageContext.tsx): the
    French and English dictionaries, the lookup `t` that falls back to the key,
    and the provider's language state with its validated saved value.

    Each dictionary is an object literal in eleven commented sections. Here a
    section is its list of keys and the list of its values in the same order,
    and a dictionary is built from all its entries in source order, a later
    entry for the same key overriding an earlier one as in an object literal. */
module Language {
  import opened Prelude

  datatype Lang = Fr | En

  const FrNavbarKeys: seq<string> := [
    "nav.title",
    "nav.titleShort"]
  const FrNavbarValues: seq<string> := [
    "Le Grimoire Éveillé",
    "Grimoire"]

  const FrSidebarKeys: seq<string> := [
    "sidebar.home",
    "sidebar.home.desc",
    "sidebar.rpg",
    "sidebar.rpg.desc",
    "sidebar.admin",
    "sidebar.admin.desc",
    "sidebar.tip.title",
    "sidebar.tip.content",
    "sidebar.footer.powered",
    "sidebar.footer.version"]
  const FrSidebarValues: seq<string> := [
    "Accueil",
    "Sélection des niveaux",
    "Jeu de Rôle",
    "Scénario immersif Poudlard",
    "Admin - Créer Niveau",
    "Ajouter un nouveau niveau",
    "Astuce",
    "Créez vos propres aventures "
      + "avec différents personnages "
      + "dans l'Admin",
    "Enchanté par les Arcanes AI",
    "v2.0"]

  const FrLevelSelectionKeys: seq<string> := [
    "rpg.selectTitle",
    "rpg.selectSubtitle",
    "rpg.status.completed",
    "rpg.status.available",
    "rpg.status.locked",
    "rpg.character",
    "rpg.button.replay",
    "rpg.button.start",
    "rpg.button.locked",
    "rpg.emptyTitle",
    "rpg.emptySubtitle",
    "rpg.admin.create"]
  const FrLevelSelectionValues: seq<string> := [
    "Choisissez votre aventure",
    "Sélectionnez un niveau pour "
      + "commencer votre histoire à "
      + "Poudlard",
    "✓ Complété",
    "▶ Disponible",
    "🔒 Verrouillé",
    "Personnage",
    "Rejouer",
    "Commencer l'aventure",
    "Terminez le niveau précédent",
    "Aucun niveau disponible",
    "Les niveaux de jeu seront "
      + "bientôt disponibles.",
    "Créer un nouveau niveau"]

  const FrGameScreenKeys: seq<string> := [
    "rpg.backToLevels",
    "rpg.grimoire",
    "rpg.inputPlaceholder",
    "rpg.gameOver",
    "rpg.victory",
    "rpg.gameOverText",
    "rpg.victoryText",
    "rpg.backButton",
    "rpg.restart",
    "rpg.loading"]
  const FrGameScreenValues: seq<string> := [
    "Niveaux",
    "Grimoire",
    "Que dites-vous à",
    "Game Over",
    "Victoire !",
    "La mission a échoué. "
      + "Réessayez pour découvrir un "
      + "autre chemin.",
    "Vous avez accompli votre "
      + "mission avec succès !",
    "Retour aux niveaux",
    "Recommencer l'histoire",
    "Chargement du niveau..."]

  const FrHermioneKeys: seq<string> := [
    "rpg.hermione.location",
    "rpg.hermione.context",
    "rpg.hermione.initialMessage",
    "rpg.hermione.victoryMessage",
    "rpg.hermione.gameOverMessage",
    "rpg.hermione.victorySnackbar",
    "rpg.hermione.gameOverSnackbar"]
  const FrHermioneValues: seq<string> := [
    "Poudlard",
    "Il est tard. Hermione est "
      + "seule.",
    "Je... je ne sais pas ce que "
      + "je fais encore ici. Tout "
      + "semble si vain. Je pense "
      + "que je vais faire mes "
      + "valises ce soir.",
    "Vous avez réussi à redonner "
      + "espoir à Hermione. Elle "
      + "décide de rester à Poudlard "
      + "pour se battre à vos côtés.",
    "Hermione a pris ses "
      + "affaires et a quitté le "
      + "château dans la nuit. "
      + "Poudlard a perdu l'un de "
      + "ses plus brillants esprits.",
    "a retrouvé espoir",
    "a quitté Poudlard"]

  const FrHagridKeys: seq<string> := [
    "rpg.hagrid.location",
    "rpg.hagrid.context",
    "rpg.hagrid.initialMessage",
    "rpg.hagrid.victoryMessage",
    "rpg.hagrid.gameOverMessage",
    "rpg.hagrid.victorySnackbar",
    "rpg.hagrid.gameOverSnackbar"]
  const FrHagridValues: seq<string> := [
    "Poudlard",
    "La cabane d'Hagrid. Il "
      + "semble cacher quelque "
      + "chose...",
    "Euh... Bonjour. Vous... "
      + "vous cherchez quelque chose "
      + "? Je... j'ai du travail à "
      + "faire, moi.",
    "Hagrid vous a fait "
      + "confiance et vous a révélé "
      + "son secret. Un magnifique "
      + "dragon attend dans sa "
      + "cabane.",
    "Hagrid s'est fermé "
      + "complètement. Vous ne "
      + "saurez jamais ce qu'il "
      + "cachait.",
    "vous a révélé son secret",
    "s'est fermé"]

  const FrMoodsKeys: seq<string> := [
    "rpg.mood.sad",
    "rpg.mood.angry",
    "rpg.mood.happy",
    "rpg.mood.desperate",
    "rpg.mood.nervous",
    "rpg.mood.neutral"]
  const FrMoodsValues: seq<string> := [
    "\"C'est sans espoir...\"",
    "\"Laissez-moi tranquille !\"",
    "\"Peut-être avez-vous "
      + "raison...\"",
    "\"Je ne peux plus supporter "
      + "ça.\"",
    "\"Euh... rien à voir ici !\"",
    "\"...\""]

  const FrHagridMoodsKeys: seq<string> := [
    "rpg.mood.hagrid.nervous",
    "rpg.mood.hagrid.angry",
    "rpg.mood.hagrid.happy",
    "rpg.mood.hagrid.desperate",
    "rpg.mood.hagrid.neutral"]
  const FrHagridMoodsValues: seq<string> := [
    "\"Euh... rien à voir ici !\"",
    "\"Partez, maintenant !\"",
    "\"Vous... vous "
      + "comprenez...\"",
    "\"Vous ne pouvez pas "
      + "comprendre.\"",
    "\"...\""]

  const FrAdminKeys: seq<string> := [
    "admin.title",
    "admin.subtitle",
    "admin.backToHome",
    "admin.form.titleLabel",
    "admin.form.titlePlaceholder",
    "admin.form.orderLabel",
    "admin.form.orderPlaceholder",
    "admin.form.statusLabel",
    "admin.form.activeCheckbox",
    "admin.form.descriptionLabel",
    "admin.form.descriptionPlaceholder",
    "admin.form.contentLabel",
    "admin.form.contentPlaceholder",
    "admin.form.contentHint",
    "admin.form.submitButton",
    "admin.form.submitting",
    "admin.success"]
  const FrAdminValues: seq<string> := [
    "Créer un Nouveau Niveau",
    "Ajoutez un nouveau chapitre "
      + "à l'histoire",
    "Retour à l'accueil",
    "Titre du Niveau",
    "Ex: Le Donjon Obscur",
    "Ordre (Index)",
    "1",
    "Statut",
    "Actif / Visible",
    "Description",
    "Brève description du "
      + "niveau...",
    "Contenu (JSON)",
    "{\"character\": \"Hagrid\", "
      + "\"initial_message\": "
      + "\"...\"}",
    "Configuration technique du "
      + "niveau au format JSON",
    "Créer le Niveau",
    "Création en cours...",
    "Niveau créé avec succès !"]

  const FrStoryProgressKeys: seq<string> := [
    "progress.title"]
  const FrStoryProgressValues: seq<string> := [
    "Progression"]

  const FrLevelsKeys: seq<string> := [
    "level.hermione.title",
    "level.hermione.description",
    "level.hagrid.title",
    "level.hagrid.description",
    "level.ron.title",
    "level.ron.description",
    "level.luna.title",
    "level.luna.description"]
  const FrLevelsValues: seq<string> := [
    "Bibliothèque de Poudlard - "
      + "Hermione",
    "Hermione Granger est "
      + "désespérée et envisage de "
      + "quitter Poudlard. Parvenez "
      + "à lui redonner espoir.",
    "La Cabane d'Hagrid",
    "Hagrid cache un secret dans "
      + "sa cabane. Gagnez sa "
      + "confiance pour découvrir ce "
      + "qu'il dissimule.",
    "La Salle Commune - Ron",
    "Ron Weasley doute de ses "
      + "capacités. Aidez-le à "
      + "retrouver confiance en lui.",
    "Le Mystère des Nargoles",
    "Luna Lovegood est "
      + "convaincue d'avoir vu des "
      + "créatures étranges près du "
      + "lac de Poudlard. Aidez-la à "
      + "démêler le vrai du faux et "
      + "à trouver la paix "
      + "intérieure."]

  const EnNavbarKeys: seq<string> := [
    "nav.title",
    "nav.titleShort"]
  const EnNavbarValues: seq<string> := [
    "The Awakened Grimoire",
    "Grimoire"]

  const EnSidebarKeys: seq<string> := [
    "sidebar.home",
    "sidebar.home.desc",
    "sidebar.rpg",
    "sidebar.rpg.desc",
    "sidebar.admin",
    "sidebar.admin.desc",
    "sidebar.tip.title",
    "sidebar.tip.content",
    "sidebar.footer.powered",
    "sidebar.footer.version"]
  const EnSidebarValues: seq<string> := [
    "Home",
    "Level Selection",
    "Role Playing",
    "Immersive Hogwarts Scenario",
    "Admin - Create Level",
    "Add a new level",
    "Tip",
    "Create your own adventures "
      + "with different characters "
      + "in the Admin section",
    "Enchanted by the AI Arcanes",
    "v2.0"]

  const EnLevelSelectionKeys: seq<string> := [
    "rpg.selectTitle",
    "rpg.selectSubtitle",
    "rpg.status.completed",
    "rpg.status.available",
    "rpg.status.locked",
    "rpg.character",
    "rpg.button.replay",
    "rpg.button.start",
    "rpg.button.locked",
    "rpg.emptyTitle",
    "rpg.emptySubtitle",
    "rpg.admin.create"]
  const EnLevelSelectionValues: seq<string> := [
    "Choose Your Adventure",
    "Select a level to start "
      + "your Hogwarts story",
    "✓ Completed",
    "▶ Available",
    "🔒 Locked",
    "Character",
    "Play Again",
    "Start Adventure",
    "Complete the previous level",
    "No levels available",
    "Game levels will be "
      + "available soon.",
    "Create a new level"]

  const EnGameScreenKeys: seq<string> := [
    "rpg.backToLevels",
    "rpg.grimoire",
    "rpg.inputPlaceholder",
    "rpg.gameOver",
    "rpg.victory",
    "rpg.gameOverText",
    "rpg.victoryText",
    "rpg.backButton",
    "rpg.restart",
    "rpg.loading"]
  const EnGameScreenValues: seq<string> := [
    "Levels",
    "Grimoire",
    "What do you say to",
    "Game Over",
    "Victory!",
    "The mission failed. Try "
      + "again to discover another "
      + "path.",
    "You have successfully "
      + "completed your mission!",
    "Back to levels",
    "Restart the story",
    "Loading level..."]

  const EnHermioneKeys: seq<string> := [
    "rpg.hermione.location",
    "rpg.hermione.context",
    "rpg.hermione.initialMessage",
    "rpg.hermione.victoryMessage",
    "rpg.hermione.gameOverMessage",
    "rpg.hermione.victorySnackbar",
    "rpg.hermione.gameOverSnackbar"]
  const EnHermioneValues: seq<string> := [
    "Hogwarts",
    "It's late. Hermione is "
      + "alone.",
    "I... I don't know what I'm "
      + "still doing here. "
      + "Everything seems so "
      + "pointless. I think I'll "
      + "pack my bags tonight.",
    "You managed to restore "
      + "Hermione's hope. She "
      + "decides to stay at Hogwarts "
      + "to fight by your side.",
    "Hermione packed her things "
      + "and left the castle in the "
      + "night. Hogwarts has lost "
      + "one of its brightest minds.",
    "found hope again",
    "left Hogwarts"]

  const EnHagridKeys: seq<string> := [
    "rpg.hagrid.location",
    "rpg.hagrid.context",
    "rpg.hagrid.initialMessage",
    "rpg.hagrid.victoryMessage",
    "rpg.hagrid.gameOverMessage",
    "rpg.hagrid.victorySnackbar",
    "rpg.hagrid.gameOverSnackbar"]
  const EnHagridValues: seq<string> := [
    "Hogwarts",
    "Hagrid's hut. He seems to "
      + "be hiding something...",
    "Uh... Hello. Are... are you "
      + "looking for something? I... "
      + "I have work to do.",
    "Hagrid trusted you and "
      + "revealed his secret. A "
      + "magnificent dragon awaits "
      + "in his hut.",
    "Hagrid closed up "
      + "completely. You'll never "
      + "know what he was hiding.",
    "revealed his secret to you",
    "closed up"]

  const EnMoodsKeys: seq<string> := [
    "rpg.mood.sad",
    "rpg.mood.angry",
    "rpg.mood.happy",
    "rpg.mood.desperate",
    "rpg.mood.nervous",
    "rpg.mood.neutral"]
  const EnMoodsValues: seq<string> := [
    "\"It's hopeless...\"",
    "\"Leave me alone!\"",
    "\"Perhaps you're right...\"",
    "\"I can't bear this "
      + "anymore.\"",
    "\"Uh... nothing to see "
      + "here!\"",
    "\"...\""]

  const EnHagridMoodsKeys: seq<string> := [
    "rpg.mood.hagrid.nervous",
    "rpg.mood.hagrid.angry",
    "rpg.mood.hagrid.happy",
    "rpg.mood.hagrid.desperate",
    "rpg.mood.hagrid.neutral"]
  const EnHagridMoodsValues: seq<string> := [
    "\"Uh... nothing to see "
      + "here!\"",
    "\"Leave, now!\"",
    "\"You... you understand...\"",
    "\"You can't understand.\"",
    "\"...\""]

  const EnAdminKeys: seq<string> := [
    "admin.title",
    "admin.subtitle",
    "admin.backToHome",
    "admin.form.titleLabel",
    "admin.form.titlePlaceholder",
    "admin.form.orderLabel",
    "admin.form.orderPlaceholder",
    "admin.form.statusLabel",
    "admin.form.activeCheckbox",
    "admin.form.descriptionLabel",
    "admin.form.descriptionPlaceholder",
    "admin.form.contentLabel",
    "admin.form.contentPlaceholder",
    "admin.form.contentHint",
    "admin.form.submitButton",
    "admin.form.submitting",
    "admin.success"]
  const EnAdminValues: seq<string> := [
    "Create a New Level",
    "Add a new chapter to the "
      + "story",
    "Back to Home",
    "Level Title",
    "Ex: The Dark Dungeon",
    "Order (Index)",
    "1",
    "Status",
    "Active / Visible",
    "Description",
    "Brief level description...",
    "Content (JSON)",
    "{\"character\": \"Hagrid\", "
      + "\"initial_message\": "
      + "\"...\"}",
    "Technical level "
      + "configuration in JSON format",
    "Create Level",
    "Creating...",
    "Level created successfully!"]

  const EnStoryProgressKeys: seq<string> := [
    "progress.title"]
  const EnStoryProgressValues: seq<string> := [
    "Progress"]

  const EnLevelsKeys: seq<string> := [
    "level.hermione.title",
    "level.hermione.description",
    "level.hagrid.title",
    "level.hagrid.description",
    "level.ron.title",
    "level.ron.description",
    "level.luna.title",
    "level.luna.description"]
  const EnLevelsValues: seq<string> := [
    "Hogwarts Library - Hermione",
    "Hermione Granger is "
      + "desperate and considering "
      + "leaving Hogwarts. Try to "
      + "restore her hope.",
    "Hagrid's Hut",
    "Hagrid is hiding a secret "
      + "in his hut. Earn his trust "
      + "to discover what he's "
      + "concealing.",
    "Common Room - Ron",
    "Ron Weasley doubts his "
      + "abilities. Help him regain "
      + "confidence in himself.",
    "The Mystery of the Nargles",
    "Luna Lovegood is convinced "
      + "she saw strange creatures "
      + "near the Hogwarts lake. "
      + "Help her sort truth from "
      + "fiction and find inner "
      + "peace."]

  const FrKeys: seq<string> :=
    FrNavbarKeys + FrSidebarKeys + FrLevelSelectionKeys + FrGameScreenKeys + FrHermioneKeys + FrHagridKeys + FrMoodsKeys + FrHagridMoodsKeys + FrAdminKeys + FrStoryProgressKeys + FrLevelsKeys
  const FrValues: seq<string> :=
    FrNavbarValues + FrSidebarValues + FrLevelSelectionValues + FrGameScreenValues + FrHermioneValues + FrHagridValues + FrMoodsValues + FrHagridMoodsValues + FrAdminValues + FrStoryProgressValues + FrLevelsValues

  const EnKeys: seq<string> :=
    EnNavbarKeys + EnSidebarKeys + EnLevelSelectionKeys + EnGameScreenKeys + EnHermioneKeys + EnHagridKeys + EnMoodsKeys + EnHagridMoodsKeys + EnAdminKeys + EnStoryProgressKeys + EnLevelsKeys
  const EnValues: seq<string> :=
    EnNavbarValues + EnSidebarValues + EnLevelSelectionValues + EnGameScreenValues + EnHermioneValues + EnHagridValues + EnMoodsValues + EnHagridMoodsValues + EnAdminValues + EnStoryProgressValues + EnLevelsValues

  /** The map an object literal with these entries denotes: entries apply
      left to right, so the last entry for a key gives its value. */
  function Build(keys: seq<string>, values: seq<string>): (d: map<string, string>)
    requires |keys| == |values|
    decreases |keys|
  {
    if keys == [] then map[]
    else Build(keys[..|keys| - 1], values[..|values| - 1])[keys[|keys| - 1] := values[|values| - 1]]
  }

  /** The keys of the map are exactly the listed keys. */
  lemma {:induction false} BuildKeys(keys: seq<string>, values: seq<string>)
    requires |keys| == |values|
    ensures Build(keys, values).Keys == set k | k in keys
    decreases |keys|
  {
    if keys != [] {
      var n := |keys| - 1;
      BuildKeys(keys[..n], values[..n]);
      assert keys == keys[..n] + [keys[n]];
    }
  }

  predicate NoEmptyValue(m: map<string, string>) {
    forall k | k in m :: m[k] != ""
  }

  predicate AllNonEmpty(values: seq<string>) {
    forall i | 0 <= i < |values| :: values[i] != ""
  }

  /** With no empty value listed, the map has no empty value. */
  lemma {:induction false} BuildNoEmptyValue(keys: seq<string>, values: seq<string>)
    requires |keys| == |values| && AllNonEmpty(values)
    ensures NoEmptyValue(Build(keys, values))
    decreases |keys|
  {
    if keys != [] {
      var n := |keys| - 1;
      assert AllNonEmpty(values[..n]);
      BuildNoEmptyValue(keys[..n], values[..n]);
    }
  }

  function Keys(lang: Lang): seq<string> {
    match lang
    case Fr => FrKeys
    case En => EnKeys
  }

  function Values(lang: Lang): seq<string> {
    match lang
    case Fr => FrValues
    case En => EnValues
  }

  lemma NavbarSectionAgrees()
    ensures FrNavbarKeys == EnNavbarKeys
    ensures |FrNavbarKeys| == |FrNavbarValues| && |EnNavbarKeys| == |EnNavbarValues|
    ensures AllNonEmpty(FrNavbarValues) && AllNonEmpty(EnNavbarValues)
  {
  }

  lemma SidebarSectionAgrees()
    ensures FrSidebarKeys == EnSidebarKeys
    ensures |FrSidebarKeys| == |FrSidebarValues| && |EnSidebarKeys| == |EnSidebarValues|
    ensures AllNonEmpty(FrSidebarValues) && AllNonEmpty(EnSidebarValues)
  {
  }

  lemma LevelSelectionSectionAgrees()
    ensures FrLevelSelectionKeys == EnLevelSelectionKeys
    ensures |FrLevelSelectionKeys| == |FrLevelSelectionValues| && |EnLevelSelectionKeys| == |EnLevelSelectionValues|
    ensures AllNonEmpty(FrLevelSelectionValues) && AllNonEmpty(EnLevelSelectionValues)
  {
  }

  lemma GameScreenSectionAgrees()
    ensures FrGameScreenKeys == EnGameScreenKeys
    ensures |FrGameScreenKeys| == |FrGameScreenValues| && |EnGameScreenKeys| == |EnGameScreenValues|
    ensures AllNonEmpty(FrGameScreenValues) && AllNonEmpty(EnGameScreenValues)
  {
  }

  lemma HermioneSectionAgrees()
    ensures FrHermioneKeys == EnHermioneKeys
    ensures |FrHermioneKeys| == |FrHermioneValues| && |EnHermioneKeys| == |EnHermioneValues|
    ensures AllNonEmpty(FrHermioneValues) && AllNonEmpty(EnHermioneValues)
  {
  }

  lemma HagridSectionAgrees()
    ensures FrHagridKeys == EnHagridKeys
    ensures |FrHagridKeys| == |FrHagridValues| && |EnHagridKeys| == |EnHagridValues|
    ensures AllNonEmpty(FrHagridValues) && AllNonEmpty(EnHagridValues)
  {
  }

  lemma MoodsSectionAgrees()
    ensures FrMoodsKeys == EnMoodsKeys
    ensures |FrMoodsKeys| == |FrMoodsValues| && |EnMoodsKeys| == |EnMoodsValues|
    ensures AllNonEmpty(FrMoodsValues) && AllNonEmpty(EnMoodsValues)
  {
  }

  lemma HagridMoodsSectionAgrees()
    ensures FrHagridMoodsKeys == EnHagridMoodsKeys
    ensures |FrHagridMoodsKeys| == |FrHagridMoodsValues| && |EnHagridMoodsKeys| == |EnHagridMoodsValues|
    ensures AllNonEmpty(FrHagridMoodsValues) && AllNonEmpty(EnHagridMoodsValues)
  {
  }

  lemma AdminSectionAgrees()
    ensures FrAdminKeys == EnAdminKeys
    ensures |FrAdminKeys| == |FrAdminValues| && |EnAdminKeys| == |EnAdminValues|
    ensures AllNonEmpty(FrAdminValues) && AllNonEmpty(EnAdminValues)
  {
  }

  lemma StoryProgressSectionAgrees()
    ensures FrStoryProgressKeys == EnStoryProgressKeys
    ensures |FrStoryProgressKeys| == |FrStoryProgressValues| && |EnStoryProgressKeys| == |EnStoryProgressValues|
    ensures AllNonEmpty(FrStoryProgressValues) && AllNonEmpty(EnStoryProgressValues)
  {
  }

  lemma LevelsSectionAgrees()
    ensures FrLevelsKeys == EnLevelsKeys
    ensures |FrLevelsKeys| == |FrLevelsValues| && |EnLevelsKeys| == |EnLevelsValues|
    ensures AllNonEmpty(FrLevelsValues) && AllNonEmpty(EnLevelsValues)
  {
  }

  lemma AllNonEmptyConcat(a: seq<string>, b: seq<string>)
    requires AllNonEmpty(a) && AllNonEmpty(b)
    ensures AllNonEmpty(a + b)
  {
  }

  /** Section by section the two languages list the same keys, as many
      values as keys, and no empty value. */
  lemma {:induction false} EntriesAgree()
    ensures FrKeys == EnKeys
    ensures |FrKeys| == |FrValues| && |EnKeys| == |EnValues|
    ensures AllNonEmpty(FrValues) && AllNonEmpty(EnValues)
  {
    NavbarSectionAgrees();
    SidebarSectionAgrees();
    LevelSelectionSectionAgrees();
    GameScreenSectionAgrees();
    HermioneSectionAgrees();
    HagridSectionAgrees();
    MoodsSectionAgrees();
    HagridMoodsSectionAgrees();
    AdminSectionAgrees();
    StoryProgressSectionAgrees();
    LevelsSectionAgrees();
    AllNonEmptyConcat(FrNavbarValues, FrSidebarValues);
    AllNonEmptyConcat(FrNavbarValues + FrSidebarValues, FrLevelSelectionValues);
    AllNonEmptyConcat(FrNavbarValues + FrSidebarValues + FrLevelSelectionValues, FrGameScreenValues);
    AllNonEmptyConcat(FrNavbarValues + FrSidebarValues + FrLevelSelectionValues + FrGameScreenValues, FrHermioneValues);
    AllNonEmptyConcat(FrNavbarValues + FrSidebarValues + FrLevelSelectionValues + FrGameScreenValues + FrHermioneValues, FrHagridValues);
    AllNonEmptyConcat(FrNavbarValues + FrSidebarValues + FrLevelSelectionValues + FrGameScreenValues + FrHermioneValues + FrHagridValues, FrMoodsValues);
    AllNonEmptyConcat(FrNavbarValues + FrSidebarValues + FrLevelSelectionValues + FrGameScreenValues + FrHermioneValues + FrHagridValues + FrMoodsValues, FrHagridMoodsValues);
    AllNonEmptyConcat(FrNavbarValues + FrSidebarValues + FrLevelSelectionValues + FrGameScreenValues + FrHermioneValues + FrHagridValues + FrMoodsValues + FrHagridMoodsValues, FrAdminValues);
    AllNonEmptyConcat(FrNavbarValues + FrSidebarValues + FrLevelSelectionValues + FrGameScreenValues + FrHermioneValues + FrHagridValues + FrMoodsValues + FrHagridMoodsValues + FrAdminValues, FrStoryProgressValues);
    AllNonEmptyConcat(FrNavbarValues + FrSidebarValues + FrLevelSelectionValues + FrGameScreenValues + FrHermioneValues + FrHagridValues + FrMoodsValues + FrHagridMoodsValues + FrAdminValues + FrStoryProgressValues, FrLevelsValues);
    AllNonEmptyConcat(EnNavbarValues, EnSidebarValues);
    AllNonEmptyConcat(EnNavbarValues + EnSidebarValues, EnLevelSelectionValues);
    AllNonEmptyConcat(EnNavbarValues + EnSidebarValues + EnLevelSelectionValues, EnGameScreenValues);
    AllNonEmptyConcat(EnNavbarValues + EnSidebarValues + EnLevelSelectionValues + EnGameScreenValues, EnHermioneValues);
    AllNonEmptyConcat(EnNavbarValues + EnSidebarValues + EnLevelSelectionValues + EnGameScreenValues + EnHermioneValues, EnHagridValues);
    AllNonEmptyConcat(EnNavbarValues + EnSidebarValues + EnLevelSelectionValues + EnGameScreenValues + EnHermioneValues + EnHagridValues, EnMoodsValues);
    AllNonEmptyConcat(EnNavbarValues + EnSidebarValues + EnLevelSelectionValues + EnGameScreenValues + EnHermioneValues + EnHagridValues + EnMoodsValues, EnHagridMoodsValues);
    AllNonEmptyConcat(EnNavbarValues + EnSidebarValues + EnLevelSelectionValues + EnGameScreenValues + EnHermioneValues + EnHagridValues + EnMoodsValues + EnHagridMoodsValues, EnAdminValues);
    AllNonEmptyConcat(EnNavbarValues + EnSidebarValues + EnLevelSelectionValues + EnGameScreenValues + EnHermioneValues + EnHagridValues + EnMoodsValues + EnHagridMoodsValues + EnAdminValues, EnStoryProgressValues);
    AllNonEmptyConcat(EnNavbarValues + EnSidebarValues + EnLevelSelectionValues + EnGameScreenValues + EnHermioneValues + EnHagridValues + EnMoodsValues + EnHagridMoodsValues + EnAdminValues + EnStoryProgressValues, EnLevelsValues);
  }

  function Dictionary(lang: Lang): map<string, string> {
    EntriesAgree();
    Build(Keys(lang), Values(lang))
  }

  /** `t(key)` on a dictionary: the entry when it exists and is not empty,
      the key itself otherwise. */
  function Lookup(entries: map<string, string>, key: string): (r: string)
    ensures key in entries && entries[key] != "" ==> r == entries[key]
    ensures key !in entries || entries[key] == "" ==> r == key
    ensures key != "" ==> r != ""
  {
    if key in entries && entries[key] != "" then entries[key] else key
  }

  /** What `useLanguage` gives a component: the current language and the
      `t` of its dictionary. */
  datatype ContextValue = ContextValue(language: Lang, entries: map<string, string>)
  {
    function T(key: string): string {
      Lookup(entries, key)
    }
  }

  /** `t(key)` in a given language. */
  function Translate(lang: Lang, key: string): (r: string)
    ensures key in Dictionary(lang) && Dictionary(lang)[key] != "" ==> r == Dictionary(lang)[key]
    ensures key !in Dictionary(lang) ==> r == key
    ensures key != "" ==> r != ""
  {
    Lookup(Dictionary(lang), key)
  }

  /** Both dictionaries define the same keys, so switching language never
      turns a translated text into a bare key. */
  lemma DictionariesHaveSameKeys()
    ensures Dictionary(Fr).Keys == Dictionary(En).Keys
  {
    EntriesAgree();
    BuildKeys(FrKeys, FrValues);
    BuildKeys(EnKeys, EnValues);
  }

  /** No entry of either dictionary is empty. */
  lemma DictionariesHaveNoEmptyValue()
    ensures NoEmptyValue(Dictionary(Fr)) && NoEmptyValue(Dictionary(En))
  {
    EntriesAgree();
    BuildNoEmptyValue(FrKeys, FrValues);
    BuildNoEmptyValue(EnKeys, EnValues);
  }

  /** So every key a dictionary defines translates to its entry. */
  lemma DefinedKeyTranslatesToEntry(lang: Lang, key: string)
    requires key in Dictionary(lang)
    ensures Translate(lang, key) == Dictionary(lang)[key]
  {
    DictionariesHaveNoEmptyValue();
  }

  /** A key the dictionaries do not define comes back unchanged in both
      languages. */
  lemma UnknownKeyIsItsOwnTranslation(key: string)
    requires key !in Dictionary(Fr)
    ensures Translate(Fr, key) == key && Translate(En, key) == key
  {
    DictionariesHaveSameKeys();
  }

  /** The saved value is adopted only when it is exactly `fr` or `en`. */
  function ParseSavedLanguage(saved: Option<string>): (r: Option<Lang>)
    ensures r == Some(Fr) <==> saved == Some("fr")
    ensures r == Some(En) <==> saved == Some("en")
    ensures r.None? <==> saved != Some("fr") && saved != Some("en")
  {
    match saved
    case Some(s) => if s == "fr" then Some(Fr) else if s == "en" then Some(En) else None
    case None => None
  }

  class LanguageProvider {
    var language: Lang

    /** The default language is French. */
    constructor()
      ensures language == Fr
    {
      language := Fr;
    }

    /** The mount effect: a valid saved language replaces the current one. */
    method LoadSaved(saved: Option<string>)
      modifies this
      ensures language == ParseSavedLanguage(saved).GetOr(old(language))
    {
      var parsed := ParseSavedLanguage(saved);
      if parsed.Some? {
        language := parsed.value;
      }
    }

    method SetLanguage(lang: Lang)
      modifies this
      ensures language == lang
    {
      language := lang;
    }

    /** The value the provider hands its consumers. */
    function Value(): (v: ContextValue)
      reads this
      ensures v.language == language && v.entries == Dictionary(language)
      ensures forall key :: v.T(key) == Translate(language, key)
    {
      ContextValue(language, Dictionary(language))
    }
  }
}
