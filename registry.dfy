/** The endpoint registry `FUNCTIONS` (toornament/api_functions_doc.py): for
    each viewer endpoint, its HTTP method, its path template, the unit of its
    pagination header, and for each parameter where it goes in the request,
    whether it may be left out, whether it is a list, and its converter.
    Each endpoint below is one entry of the source's dictionary literal, with
    the line range it occupies; the path template is held parsed (see
    PathTemplate). */
module ApiFunctionsDoc {
  import opened Wrappers
  import opened Converters
  import opened PathTemplate

  /** One parameter entry: `type`, `optional`, `list` and `converter`. */
  datatype Parameter = Parameter(kind: nat, optional: bool, isList: bool, converter: Converter)

  /** One endpoint entry: `parameters`, `method` (here `httpMethod`), `range` and `path`. */
  datatype Endpoint = Endpoint(
    parameters: map<string, Parameter>,
    httpMethod: string,
    range: Option<string>,
    path: Template)

  /** `viewer_get_bracket_nodes` (lines 5-65). */
  const ViewerGetBracketNodes: Endpoint := Endpoint(
    parameters := map[
        "range" := Parameter(HEADER, false, false, RangeFormat),
        "tournament_id" := Parameter(PATH, false, false, ToStr),
        "stage_id" := Parameter(PATH, false, false, ToStr),
        "group_ids" := Parameter(QUERY, true, true, ToStr),
        "group_numbers" := Parameter(QUERY, true, true, Identity),
        "round_ids" := Parameter(QUERY, true, true, ToStr),
        "round_numbers" := Parameter(QUERY, true, true, Identity),
        "min_depth" := Parameter(QUERY, true, false, Identity),
        "max_depth" := Parameter(QUERY, true, false, Identity)
    ],
    httpMethod := "GET",
    range := Some("nodes"),
    path := Template([Segment("/tournaments/", "tournament_id"), Segment("/stages/", "stage_id")], "/bracket-nodes"))

  /** `viewer_get_custom_fields` (lines 66-84). */
  const ViewerGetCustomFields: Endpoint := Endpoint(
    parameters := map[
        "tournament_id" := Parameter(PATH, false, false, ToStr),
        "target_type" := Parameter(QUERY, true, false, Identity)
    ],
    httpMethod := "GET",
    range := None,
    path := Template([Segment("/tournaments/", "tournament_id")], "/custom-fields"))

  /** `viewer_get_disciplines` (lines 85-97). */
  const ViewerGetDisciplines: Endpoint := Endpoint(
    parameters := map[
        "range" := Parameter(HEADER, false, false, RangeFormat)
    ],
    httpMethod := "GET",
    range := Some("disciplines"),
    path := Template([], "/disciplines"))

  /** `viewer_get_discipline` (lines 98-110). */
  const ViewerGetDiscipline: Endpoint := Endpoint(
    parameters := map[
        "id" := Parameter(PATH, false, false, ToStr)
    ],
    httpMethod := "GET",
    range := None,
    path := Template([Segment("/disciplines/", "id")], ""))

  /** `viewer_get_groups` (lines 111-141). */
  const ViewerGetGroups: Endpoint := Endpoint(
    parameters := map[
        "range" := Parameter(HEADER, false, false, RangeFormat),
        "tournament_id" := Parameter(PATH, false, false, ToStr),
        "stage_ids" := Parameter(QUERY, true, true, ToStr),
        "stage_numbers" := Parameter(QUERY, true, true, Identity)
    ],
    httpMethod := "GET",
    range := Some("groups"),
    path := Template([Segment("/tournaments/", "tournament_id")], "/groups"))

  /** `viewer_get_group` (lines 142-160). */
  const ViewerGetGroup: Endpoint := Endpoint(
    parameters := map[
        "tournament_id" := Parameter(PATH, false, false, ToStr),
        "id" := Parameter(PATH, false, false, ToStr)
    ],
    httpMethod := "GET",
    range := None,
    path := Template([Segment("/tournaments/", "tournament_id"), Segment("/groups/", "id")], ""))

  /** `viewer_get_matches_from_tournament` (lines 161-251). */
  const ViewerGetMatchesFromTournament: Endpoint := Endpoint(
    parameters := map[
        "range" := Parameter(HEADER, false, false, RangeFormat),
        "tournament_id" := Parameter(PATH, false, false, ToStr),
        "stage_ids" := Parameter(QUERY, true, true, ToStr),
        "stage_numbers" := Parameter(QUERY, true, true, Identity),
        "group_ids" := Parameter(QUERY, true, true, ToStr),
        "group_numbers" := Parameter(QUERY, true, true, Identity),
        "round_ids" := Parameter(QUERY, true, true, ToStr),
        "round_numbers" := Parameter(QUERY, true, true, Identity),
        "statuses" := Parameter(QUERY, true, true, Identity),
        "is_scheduled" := Parameter(QUERY, true, false, Identity),
        "scheduled_before" := Parameter(QUERY, true, false, ToDatetime),
        "scheduled_after" := Parameter(QUERY, true, false, ToDatetime),
        "participant_ids" := Parameter(QUERY, true, true, ToStr),
        "sort" := Parameter(QUERY, true, false, Identity)
    ],
    httpMethod := "GET",
    range := Some("matches"),
    path := Template([Segment("/tournaments/", "tournament_id")], "/matches"))

  /** `viewer_get_match` (lines 252-270). */
  const ViewerGetMatch: Endpoint := Endpoint(
    parameters := map[
        "tournament_id" := Parameter(PATH, false, false, ToStr),
        "id" := Parameter(PATH, false, false, ToStr)
    ],
    httpMethod := "GET",
    range := None,
    path := Template([Segment("/tournaments/", "tournament_id"), Segment("/matches/", "id")], ""))

  /** `viewer_get_matches_from_discipline` (lines 271-331). */
  const ViewerGetMatchesFromDiscipline: Endpoint := Endpoint(
    parameters := map[
        "range" := Parameter(HEADER, false, false, RangeFormat),
        "discipline_id" := Parameter(PATH, false, false, ToStr),
        "is_featured" := Parameter(QUERY, true, false, Identity),
        "statuses" := Parameter(QUERY, true, true, Identity),
        "scheduled_before" := Parameter(QUERY, true, false, ToDatetime),
        "scheduled_after" := Parameter(QUERY, true, false, ToDatetime),
        "participant_ids" := Parameter(QUERY, true, true, ToStr),
        "tournament_ids" := Parameter(QUERY, true, true, ToStr),
        "sort" := Parameter(QUERY, true, false, Identity)
    ],
    httpMethod := "GET",
    range := Some("matches"),
    path := Template([Segment("/disciplines/", "discipline_id")], "/matches"))

  /** `viewer_get_game` (lines 332-356). */
  const ViewerGetGame: Endpoint := Endpoint(
    parameters := map[
        "tournament_id" := Parameter(PATH, false, false, ToStr),
        "match_id" := Parameter(PATH, false, false, ToStr),
        "number" := Parameter(PATH, false, false, Identity)
    ],
    httpMethod := "GET",
    range := None,
    path := Template([Segment("/tournaments/", "tournament_id"), Segment("/matches/", "match_id"), Segment("/games/", "number")], ""))

  /** `viewer_get_participants` (lines 357-387). */
  const ViewerGetParticipants: Endpoint := Endpoint(
    parameters := map[
        "range" := Parameter(HEADER, false, false, RangeFormat),
        "tournament_id" := Parameter(PATH, false, false, ToStr),
        "name" := Parameter(QUERY, true, false, Identity),
        "sort" := Parameter(QUERY, true, false, Identity)
    ],
    httpMethod := "GET",
    range := Some("participants"),
    path := Template([Segment("/tournaments/", "tournament_id")], "/participants"))

  /** `viewer_get_participant` (lines 388-406). */
  const ViewerGetParticipant: Endpoint := Endpoint(
    parameters := map[
        "tournament_id" := Parameter(PATH, false, false, ToStr),
        "id" := Parameter(PATH, false, false, ToStr)
    ],
    httpMethod := "GET",
    range := None,
    path := Template([Segment("/tournaments/", "tournament_id"), Segment("/participants/", "id")], ""))

  /** `viewer_get_playlist` (lines 407-419). */
  const ViewerGetPlaylist: Endpoint := Endpoint(
    parameters := map[
        "id" := Parameter(PATH, false, false, ToStr)
    ],
    httpMethod := "GET",
    range := None,
    path := Template([Segment("/playlists/", "id")], ""))

  /** `viewer_get_ranking_items` (lines 420-456). */
  const ViewerGetRankingItems: Endpoint := Endpoint(
    parameters := map[
        "range" := Parameter(HEADER, false, false, RangeFormat),
        "tournament_id" := Parameter(PATH, false, false, ToStr),
        "stage_id" := Parameter(PATH, false, false, ToStr),
        "group_ids" := Parameter(QUERY, true, true, ToStr),
        "group_numbers" := Parameter(QUERY, true, true, Identity)
    ],
    httpMethod := "GET",
    range := Some("items"),
    path := Template([Segment("/tournaments/", "tournament_id"), Segment("/stages/", "stage_id")], "/ranking-items"))

  /** `viewer_get_rounds` (lines 457-499). */
  const ViewerGetRounds: Endpoint := Endpoint(
    parameters := map[
        "range" := Parameter(HEADER, false, false, RangeFormat),
        "tournament_id" := Parameter(PATH, false, false, ToStr),
        "stage_ids" := Parameter(QUERY, true, true, ToStr),
        "stage_numbers" := Parameter(QUERY, true, true, Identity),
        "group_ids" := Parameter(QUERY, true, true, ToStr),
        "group_numbers" := Parameter(QUERY, true, true, Identity)
    ],
    httpMethod := "GET",
    range := Some("rounds"),
    path := Template([Segment("/tournaments/", "tournament_id")], "/rounds"))

  /** `viewer_get_round` (lines 500-518). */
  const ViewerGetRound: Endpoint := Endpoint(
    parameters := map[
        "tournament_id" := Parameter(PATH, false, false, ToStr),
        "id" := Parameter(PATH, false, false, ToStr)
    ],
    httpMethod := "GET",
    range := None,
    path := Template([Segment("/tournaments/", "tournament_id"), Segment("/rounds/", "id")], ""))

  /** `viewer_get_stages` (lines 519-531). */
  const ViewerGetStages: Endpoint := Endpoint(
    parameters := map[
        "tournament_id" := Parameter(PATH, false, false, ToStr)
    ],
    httpMethod := "GET",
    range := None,
    path := Template([Segment("/tournaments/", "tournament_id")], "/stages"))

  /** `viewer_get_stage` (lines 532-550). */
  const ViewerGetStage: Endpoint := Endpoint(
    parameters := map[
        "tournament_id" := Parameter(PATH, false, false, ToStr),
        "id" := Parameter(PATH, false, false, ToStr)
    ],
    httpMethod := "GET",
    range := None,
    path := Template([Segment("/tournaments/", "tournament_id"), Segment("/stages/", "id")], ""))

  /** `viewer_get_standings` (lines 551-575). */
  const ViewerGetStandings: Endpoint := Endpoint(
    parameters := map[
        "range" := Parameter(HEADER, false, false, RangeFormat),
        "tournament_ids" := Parameter(QUERY, false, true, ToStr),
        "participant_ids" := Parameter(QUERY, true, true, ToStr)
    ],
    httpMethod := "GET",
    range := Some("items"),
    path := Template([], "/standings"))

  /** `viewer_get_streams` (lines 576-600). */
  const ViewerGetStreams: Endpoint := Endpoint(
    parameters := map[
        "tournament_id" := Parameter(PATH, false, false, ToStr),
        "range" := Parameter(HEADER, false, false, RangeFormat),
        "match_ids" := Parameter(QUERY, true, true, ToStr)
    ],
    httpMethod := "GET",
    range := Some("streams"),
    path := Template([Segment("/tournaments/", "tournament_id")], "/streams"))

  /** `viewer_get_tournaments_featured` (lines 601-667). */
  const ViewerGetTournamentsFeatured: Endpoint := Endpoint(
    parameters := map[
        "range" := Parameter(HEADER, false, false, RangeFormat),
        "name" := Parameter(QUERY, true, false, Identity),
        "disciplines" := Parameter(QUERY, true, false, Identity),
        "statuses" := Parameter(QUERY, true, false, Identity),
        "scheduled_before" := Parameter(QUERY, true, false, ToDate),
        "scheduled_after" := Parameter(QUERY, true, false, ToDate),
        "countries" := Parameter(QUERY, true, false, Identity),
        "platforms" := Parameter(QUERY, true, false, Identity),
        "is_online" := Parameter(QUERY, true, false, Identity),
        "sort" := Parameter(QUERY, true, false, Identity)
    ],
    httpMethod := "GET",
    range := Some("tournaments"),
    path := Template([], "/tournaments/featured"))

  /** `viewer_get_tournament` (lines 668-680). */
  const ViewerGetTournament: Endpoint := Endpoint(
    parameters := map[
        "id" := Parameter(PATH, false, false, ToStr)
    ],
    httpMethod := "GET",
    range := None,
    path := Template([Segment("/tournaments/", "id")], ""))

  /** `viewer_get_tournaments_by_playlist` (lines 681-753). */
  const ViewerGetTournamentsByPlaylist: Endpoint := Endpoint(
    parameters := map[
        "range" := Parameter(HEADER, false, false, RangeFormat),
        "id" := Parameter(PATH, false, false, ToStr),
        "name" := Parameter(QUERY, true, false, Identity),
        "disciplines" := Parameter(QUERY, true, false, Identity),
        "statuses" := Parameter(QUERY, true, false, Identity),
        "scheduled_before" := Parameter(QUERY, true, false, ToDate),
        "scheduled_after" := Parameter(QUERY, true, false, ToDate),
        "countries" := Parameter(QUERY, true, false, Identity),
        "platforms" := Parameter(QUERY, true, false, Identity),
        "is_online" := Parameter(QUERY, true, false, Identity),
        "sort" := Parameter(QUERY, true, false, Identity)
    ],
    httpMethod := "GET",
    range := Some("tournaments"),
    path := Template([Segment("/playlists/", "id")], "/tournaments"))

  /** `viewer_get_videos` (lines 754-790). */
  const ViewerGetVideos: Endpoint := Endpoint(
    parameters := map[
        "tournament_id" := Parameter(PATH, false, false, ToStr),
        "range" := Parameter(HEADER, false, false, RangeFormat),
        "participant_ids" := Parameter(QUERY, true, true, ToStr),
        "category" := Parameter(QUERY, true, false, Identity),
        "sort" := Parameter(QUERY, true, false, Identity)
    ],
    httpMethod := "GET",
    range := Some("videos"),
    path := Template([Segment("/tournaments/", "tournament_id")], "/videos"))

  /** `viewer_get_videos_by_match` (lines 791-821). */
  const ViewerGetVideosByMatch: Endpoint := Endpoint(
    parameters := map[
        "tournament_id" := Parameter(PATH, false, false, ToStr),
        "match_id" := Parameter(PATH, false, false, ToStr),
        "category" := Parameter(QUERY, true, false, Identity),
        "sort" := Parameter(QUERY, true, false, Identity)
    ],
    httpMethod := "GET",
    range := None,
    path := Template([Segment("/tournaments/", "tournament_id"), Segment("/matches/", "match_id")], "/videos"))

  /** `FUNCTIONS[name]`: the entry registered under `name`, or None where
      the dictionary has no such key. */
  function Functions(name: string): Option<Endpoint> {
    match name
    case "viewer_get_bracket_nodes" => Some(ViewerGetBracketNodes)
    case "viewer_get_custom_fields" => Some(ViewerGetCustomFields)
    case "viewer_get_disciplines" => Some(ViewerGetDisciplines)
    case "viewer_get_discipline" => Some(ViewerGetDiscipline)
    case "viewer_get_groups" => Some(ViewerGetGroups)
    case "viewer_get_group" => Some(ViewerGetGroup)
    case "viewer_get_matches_from_tournament" => Some(ViewerGetMatchesFromTournament)
    case "viewer_get_match" => Some(ViewerGetMatch)
    case "viewer_get_matches_from_discipline" => Some(ViewerGetMatchesFromDiscipline)
    case "viewer_get_game" => Some(ViewerGetGame)
    case "viewer_get_participants" => Some(ViewerGetParticipants)
    case "viewer_get_participant" => Some(ViewerGetParticipant)
    case "viewer_get_playlist" => Some(ViewerGetPlaylist)
    case "viewer_get_ranking_items" => Some(ViewerGetRankingItems)
    case "viewer_get_rounds" => Some(ViewerGetRounds)
    case "viewer_get_round" => Some(ViewerGetRound)
    case "viewer_get_stages" => Some(ViewerGetStages)
    case "viewer_get_stage" => Some(ViewerGetStage)
    case "viewer_get_standings" => Some(ViewerGetStandings)
    case "viewer_get_streams" => Some(ViewerGetStreams)
    case "viewer_get_tournaments_featured" => Some(ViewerGetTournamentsFeatured)
    case "viewer_get_tournament" => Some(ViewerGetTournament)
    case "viewer_get_tournaments_by_playlist" => Some(ViewerGetTournamentsByPlaylist)
    case "viewer_get_videos" => Some(ViewerGetVideos)
    case "viewer_get_videos_by_match" => Some(ViewerGetVideosByMatch)
    case _ => None
  }

  /** The names of an endpoint's parameters of one placement. */
  function NamesOfKind(ep: Endpoint, kind: nat): set<string> {
    set n | n in ep.parameters && ep.parameters[n].kind == kind
  }

  /** The query parameters an endpoint cannot be called without. */
  function RequiredQuery(ep: Endpoint): set<string> {
    set n | n in ep.parameters && ep.parameters[n].kind == QUERY && !ep.parameters[n].optional
  }

  /** Every parameter goes to the headers, the path or the query string. */
  predicate KindsKnown(ep: Endpoint) {
    forall n | n in ep.parameters :: ep.parameters[n].kind in {HEADER, PATH, QUERY}
  }

  /** The only header parameter is the pagination window `range`, which
      must be given and goes through `Converter.range`, and a parameter named
      `range` is a header parameter. */
  predicate HeaderIsRange(ep: Endpoint) {
    && (forall n | n in ep.parameters && ep.parameters[n].kind == HEADER ::
          n == "range" && ep.parameters[n] == Parameter(HEADER, false, false, RangeFormat))
    && ("range" in ep.parameters ==> ep.parameters["range"].kind == HEADER)
  }

  /** Path parameters are single values that must be given, and each one
      names a replacement field of the path. */
  predicate PathParamsInTemplate(ep: Endpoint) {
    forall n | n in ep.parameters && ep.parameters[n].kind == PATH ::
      !ep.parameters[n].optional && !ep.parameters[n].isList && n in Names(ep.path)
  }

  /** Each replacement field of the path is a path parameter. */
  predicate TemplateFieldsArePathParams(ep: Endpoint) {
    forall s | s in ep.path.segments :: s.field in ep.parameters && ep.parameters[s.field].kind == PATH
  }

  /** What `prepare_request` and the path substitution rely on in every
      entry. */
  predicate WellFormedEndpoint(ep: Endpoint) {
    && ep.httpMethod == "GET"
    && (ep.range.Some? <==> "range" in ep.parameters)
    && KindsKnown(ep)
    && HeaderIsRange(ep)
    && PathParamsInTemplate(ep)
    && TemplateFieldsArePathParams(ep)
    && WellFormed(ep.path)
  }

  lemma PathTextsBraceFree0()
    ensures NoBraces("/tournaments/")
         && NoBraces("tournament_id")
         && NoBraces("/stages/")
         && NoBraces("stage_id")
         && NoBraces("/bracket-nodes")
         && NoBraces("/custom-fields")
  {
  }

  lemma PathTextsBraceFree1()
    ensures NoBraces("/disciplines")
         && NoBraces("/disciplines/")
         && NoBraces("id")
         && NoBraces("/groups")
         && NoBraces("/groups/")
         && NoBraces("/matches")
  {
  }

  lemma PathTextsBraceFree2()
    ensures NoBraces("/matches/")
         && NoBraces("discipline_id")
         && NoBraces("match_id")
         && NoBraces("/games/")
         && NoBraces("number")
         && NoBraces("/participants")
  {
  }

  lemma PathTextsBraceFree3()
    ensures NoBraces("/participants/")
         && NoBraces("/playlists/")
         && NoBraces("/ranking-items")
         && NoBraces("/rounds")
         && NoBraces("/rounds/")
         && NoBraces("/stages")
  {
  }

  lemma PathTextsBraceFree4()
    ensures NoBraces("/standings")
         && NoBraces("/streams")
         && NoBraces("/tournaments/featured")
         && NoBraces("/tournaments")
         && NoBraces("/videos")
  {
  }

  /** The entry `viewer_get_bracket_nodes` (lines 5-65) is well formed. */
  lemma ViewerGetBracketNodesWellFormed()
    ensures WellFormedEndpoint(ViewerGetBracketNodes)
  {
    PathTextsBraceFree0();
  }

  /** The entry `viewer_get_custom_fields` (lines 66-84) is well formed. */
  lemma ViewerGetCustomFieldsWellFormed()
    ensures WellFormedEndpoint(ViewerGetCustomFields)
  {
    PathTextsBraceFree0();
  }

  /** The entry `viewer_get_disciplines` (lines 85-97) is well formed. */
  lemma ViewerGetDisciplinesWellFormed()
    ensures WellFormedEndpoint(ViewerGetDisciplines)
  {
    PathTextsBraceFree1();
  }

  /** The entry `viewer_get_discipline` (lines 98-110) is well formed. */
  lemma ViewerGetDisciplineWellFormed()
    ensures WellFormedEndpoint(ViewerGetDiscipline)
  {
    PathTextsBraceFree1();
  }

  /** The entry `viewer_get_groups` (lines 111-141) is well formed. */
  lemma ViewerGetGroupsWellFormed()
    ensures WellFormedEndpoint(ViewerGetGroups)
  {
    PathTextsBraceFree0();
    PathTextsBraceFree1();
  }

  /** The entry `viewer_get_group` (lines 142-160) is well formed. */
  lemma ViewerGetGroupWellFormed()
    ensures WellFormedEndpoint(ViewerGetGroup)
  {
    PathTextsBraceFree0();
    PathTextsBraceFree1();
  }

  /** The entry `viewer_get_matches_from_tournament` (lines 161-251) is well formed. */
  lemma ViewerGetMatchesFromTournamentWellFormed()
    ensures WellFormedEndpoint(ViewerGetMatchesFromTournament)
  {
    PathTextsBraceFree0();
    PathTextsBraceFree1();
  }

  /** The entry `viewer_get_match` (lines 252-270) is well formed. */
  lemma ViewerGetMatchWellFormed()
    ensures WellFormedEndpoint(ViewerGetMatch)
  {
    PathTextsBraceFree0();
    PathTextsBraceFree1();
    PathTextsBraceFree2();
  }

  /** The entry `viewer_get_matches_from_discipline` (lines 271-331) is well formed. */
  lemma ViewerGetMatchesFromDisciplineWellFormed()
    ensures WellFormedEndpoint(ViewerGetMatchesFromDiscipline)
  {
    PathTextsBraceFree1();
    PathTextsBraceFree2();
  }

  /** The entry `viewer_get_game` (lines 332-356) is well formed. */
  lemma ViewerGetGameWellFormed()
    ensures WellFormedEndpoint(ViewerGetGame)
  {
    PathTextsBraceFree0();
    PathTextsBraceFree2();
  }

  /** The entry `viewer_get_participants` (lines 357-387) is well formed. */
  lemma ViewerGetParticipantsWellFormed()
    ensures WellFormedEndpoint(ViewerGetParticipants)
  {
    PathTextsBraceFree0();
    PathTextsBraceFree2();
  }

  /** The entry `viewer_get_participant` (lines 388-406) is well formed. */
  lemma ViewerGetParticipantWellFormed()
    ensures WellFormedEndpoint(ViewerGetParticipant)
  {
    PathTextsBraceFree0();
    PathTextsBraceFree1();
    PathTextsBraceFree3();
  }

  /** The entry `viewer_get_playlist` (lines 407-419) is well formed. */
  lemma ViewerGetPlaylistWellFormed()
    ensures WellFormedEndpoint(ViewerGetPlaylist)
  {
    PathTextsBraceFree1();
    PathTextsBraceFree3();
  }

  /** The entry `viewer_get_ranking_items` (lines 420-456) is well formed. */
  lemma ViewerGetRankingItemsWellFormed()
    ensures WellFormedEndpoint(ViewerGetRankingItems)
  {
    PathTextsBraceFree0();
    PathTextsBraceFree3();
  }

  /** The entry `viewer_get_rounds` (lines 457-499) is well formed. */
  lemma ViewerGetRoundsWellFormed()
    ensures WellFormedEndpoint(ViewerGetRounds)
  {
    PathTextsBraceFree0();
    PathTextsBraceFree3();
  }

  /** The entry `viewer_get_round` (lines 500-518) is well formed. */
  lemma ViewerGetRoundWellFormed()
    ensures WellFormedEndpoint(ViewerGetRound)
  {
    PathTextsBraceFree0();
    PathTextsBraceFree1();
    PathTextsBraceFree3();
  }

  /** The entry `viewer_get_stages` (lines 519-531) is well formed. */
  lemma ViewerGetStagesWellFormed()
    ensures WellFormedEndpoint(ViewerGetStages)
  {
    PathTextsBraceFree0();
    PathTextsBraceFree3();
  }

  /** The entry `viewer_get_stage` (lines 532-550) is well formed. */
  lemma ViewerGetStageWellFormed()
    ensures WellFormedEndpoint(ViewerGetStage)
  {
    PathTextsBraceFree0();
    PathTextsBraceFree1();
  }

  /** The entry `viewer_get_standings` (lines 551-575) is well formed. */
  lemma ViewerGetStandingsWellFormed()
    ensures WellFormedEndpoint(ViewerGetStandings)
  {
    PathTextsBraceFree4();
  }

  /** The entry `viewer_get_streams` (lines 576-600) is well formed. */
  lemma ViewerGetStreamsWellFormed()
    ensures WellFormedEndpoint(ViewerGetStreams)
  {
    PathTextsBraceFree0();
    PathTextsBraceFree4();
  }

  /** The entry `viewer_get_tournaments_featured` (lines 601-667) is well formed. */
  lemma ViewerGetTournamentsFeaturedWellFormed()
    ensures WellFormedEndpoint(ViewerGetTournamentsFeatured)
  {
    PathTextsBraceFree4();
  }

  /** The entry `viewer_get_tournament` (lines 668-680) is well formed. */
  lemma ViewerGetTournamentWellFormed()
    ensures WellFormedEndpoint(ViewerGetTournament)
  {
    PathTextsBraceFree0();
    PathTextsBraceFree1();
  }

  /** The entry `viewer_get_tournaments_by_playlist` (lines 681-753) is well formed. */
  lemma ViewerGetTournamentsByPlaylistWellFormed()
    ensures WellFormedEndpoint(ViewerGetTournamentsByPlaylist)
  {
    PathTextsBraceFree1();
    PathTextsBraceFree3();
    PathTextsBraceFree4();
  }

  /** The entry `viewer_get_videos` (lines 754-790) is well formed. */
  lemma ViewerGetVideosWellFormed()
    ensures WellFormedEndpoint(ViewerGetVideos)
  {
    PathTextsBraceFree0();
    PathTextsBraceFree4();
  }

  /** The entry `viewer_get_videos_by_match` (lines 791-821) is well formed. */
  lemma ViewerGetVideosByMatchWellFormed()
    ensures WellFormedEndpoint(ViewerGetVideosByMatch)
  {
    PathTextsBraceFree0();
    PathTextsBraceFree2();
    PathTextsBraceFree4();
  }

  lemma ViewerGetBracketNodesRequiredQuery()
    ensures RequiredQuery(ViewerGetBracketNodes) == {}
  {
  }

  lemma ViewerGetCustomFieldsRequiredQuery()
    ensures RequiredQuery(ViewerGetCustomFields) == {}
  {
  }

  lemma ViewerGetDisciplinesRequiredQuery()
    ensures RequiredQuery(ViewerGetDisciplines) == {}
  {
  }

  lemma ViewerGetDisciplineRequiredQuery()
    ensures RequiredQuery(ViewerGetDiscipline) == {}
  {
  }

  lemma ViewerGetGroupsRequiredQuery()
    ensures RequiredQuery(ViewerGetGroups) == {}
  {
  }

  lemma ViewerGetGroupRequiredQuery()
    ensures RequiredQuery(ViewerGetGroup) == {}
  {
  }

  lemma ViewerGetMatchesFromTournamentRequiredQuery()
    ensures RequiredQuery(ViewerGetMatchesFromTournament) == {}
  {
  }

  lemma ViewerGetMatchRequiredQuery()
    ensures RequiredQuery(ViewerGetMatch) == {}
  {
  }

  lemma ViewerGetMatchesFromDisciplineRequiredQuery()
    ensures RequiredQuery(ViewerGetMatchesFromDiscipline) == {}
  {
  }

  lemma ViewerGetGameRequiredQuery()
    ensures RequiredQuery(ViewerGetGame) == {}
  {
  }

  lemma ViewerGetParticipantsRequiredQuery()
    ensures RequiredQuery(ViewerGetParticipants) == {}
  {
  }

  lemma ViewerGetParticipantRequiredQuery()
    ensures RequiredQuery(ViewerGetParticipant) == {}
  {
  }

  lemma ViewerGetPlaylistRequiredQuery()
    ensures RequiredQuery(ViewerGetPlaylist) == {}
  {
  }

  lemma ViewerGetRankingItemsRequiredQuery()
    ensures RequiredQuery(ViewerGetRankingItems) == {}
  {
  }

  lemma ViewerGetRoundsRequiredQuery()
    ensures RequiredQuery(ViewerGetRounds) == {}
  {
  }

  lemma ViewerGetRoundRequiredQuery()
    ensures RequiredQuery(ViewerGetRound) == {}
  {
  }

  lemma ViewerGetStagesRequiredQuery()
    ensures RequiredQuery(ViewerGetStages) == {}
  {
  }

  lemma ViewerGetStageRequiredQuery()
    ensures RequiredQuery(ViewerGetStage) == {}
  {
  }

  lemma ViewerGetStandingsRequiredQuery()
    ensures RequiredQuery(ViewerGetStandings) == {"tournament_ids"}
    ensures ViewerGetStandings.parameters["tournament_ids"].isList
  {
  }

  lemma ViewerGetStreamsRequiredQuery()
    ensures RequiredQuery(ViewerGetStreams) == {}
  {
  }

  lemma ViewerGetTournamentsFeaturedRequiredQuery()
    ensures RequiredQuery(ViewerGetTournamentsFeatured) == {}
  {
  }

  lemma ViewerGetTournamentRequiredQuery()
    ensures RequiredQuery(ViewerGetTournament) == {}
  {
  }

  lemma ViewerGetTournamentsByPlaylistRequiredQuery()
    ensures RequiredQuery(ViewerGetTournamentsByPlaylist) == {}
  {
  }

  lemma ViewerGetVideosRequiredQuery()
    ensures RequiredQuery(ViewerGetVideos) == {}
  {
  }

  lemma ViewerGetVideosByMatchRequiredQuery()
    ensures RequiredQuery(ViewerGetVideosByMatch) == {}
  {
  }

  lemma ViewerGetBracketNodesRegistered()
    ensures Functions("viewer_get_bracket_nodes") == Some(ViewerGetBracketNodes)
  {
  }

  lemma ViewerGetCustomFieldsRegistered()
    ensures Functions("viewer_get_custom_fields") == Some(ViewerGetCustomFields)
  {
  }

  lemma ViewerGetDisciplinesRegistered()
    ensures Functions("viewer_get_disciplines") == Some(ViewerGetDisciplines)
  {
  }

  lemma ViewerGetDisciplineRegistered()
    ensures Functions("viewer_get_discipline") == Some(ViewerGetDiscipline)
  {
  }

  lemma ViewerGetGroupsRegistered()
    ensures Functions("viewer_get_groups") == Some(ViewerGetGroups)
  {
  }

  lemma ViewerGetGroupRegistered()
    ensures Functions("viewer_get_group") == Some(ViewerGetGroup)
  {
  }

  lemma ViewerGetMatchesFromTournamentRegistered()
    ensures Functions("viewer_get_matches_from_tournament") == Some(ViewerGetMatchesFromTournament)
  {
  }

  lemma ViewerGetMatchRegistered()
    ensures Functions("viewer_get_match") == Some(ViewerGetMatch)
  {
  }

  lemma ViewerGetMatchesFromDisciplineRegistered()
    ensures Functions("viewer_get_matches_from_discipline") == Some(ViewerGetMatchesFromDiscipline)
  {
  }

  lemma ViewerGetGameRegistered()
    ensures Functions("viewer_get_game") == Some(ViewerGetGame)
  {
  }

  lemma ViewerGetParticipantsRegistered()
    ensures Functions("viewer_get_participants") == Some(ViewerGetParticipants)
  {
  }

  lemma ViewerGetParticipantRegistered()
    ensures Functions("viewer_get_participant") == Some(ViewerGetParticipant)
  {
  }

  lemma ViewerGetPlaylistRegistered()
    ensures Functions("viewer_get_playlist") == Some(ViewerGetPlaylist)
  {
  }

  lemma ViewerGetRankingItemsRegistered()
    ensures Functions("viewer_get_ranking_items") == Some(ViewerGetRankingItems)
  {
  }

  lemma ViewerGetRoundsRegistered()
    ensures Functions("viewer_get_rounds") == Some(ViewerGetRounds)
  {
  }

  lemma ViewerGetRoundRegistered()
    ensures Functions("viewer_get_round") == Some(ViewerGetRound)
  {
  }

  lemma ViewerGetStagesRegistered()
    ensures Functions("viewer_get_stages") == Some(ViewerGetStages)
  {
  }

  lemma ViewerGetStageRegistered()
    ensures Functions("viewer_get_stage") == Some(ViewerGetStage)
  {
  }

  lemma ViewerGetStandingsRegistered()
    ensures Functions("viewer_get_standings") == Some(ViewerGetStandings)
  {
  }

  lemma ViewerGetStreamsRegistered()
    ensures Functions("viewer_get_streams") == Some(ViewerGetStreams)
  {
  }

  lemma ViewerGetTournamentsFeaturedRegistered()
    ensures Functions("viewer_get_tournaments_featured") == Some(ViewerGetTournamentsFeatured)
  {
  }

  lemma ViewerGetTournamentRegistered()
    ensures Functions("viewer_get_tournament") == Some(ViewerGetTournament)
  {
  }

  lemma ViewerGetTournamentsByPlaylistRegistered()
    ensures Functions("viewer_get_tournaments_by_playlist") == Some(ViewerGetTournamentsByPlaylist)
  {
  }

  lemma ViewerGetVideosRegistered()
    ensures Functions("viewer_get_videos") == Some(ViewerGetVideos)
  {
  }

  lemma ViewerGetVideosByMatchRegistered()
    ensures Functions("viewer_get_videos_by_match") == Some(ViewerGetVideosByMatch)
  {
  }

  /** Every entry of the registry is well formed. */
  lemma RegistryWellFormed()
    ensures forall name | Functions(name).Some? :: WellFormedEndpoint(Functions(name).value)
  {
    forall name | Functions(name).Some?
      ensures WellFormedEndpoint(Functions(name).value)
    {
      match name
        case "viewer_get_bracket_nodes" => ViewerGetBracketNodesRegistered(); ViewerGetBracketNodesWellFormed();
        case "viewer_get_custom_fields" => ViewerGetCustomFieldsRegistered(); ViewerGetCustomFieldsWellFormed();
        case "viewer_get_disciplines" => ViewerGetDisciplinesRegistered(); ViewerGetDisciplinesWellFormed();
        case "viewer_get_discipline" => ViewerGetDisciplineRegistered(); ViewerGetDisciplineWellFormed();
        case "viewer_get_groups" => ViewerGetGroupsRegistered(); ViewerGetGroupsWellFormed();
        case "viewer_get_group" => ViewerGetGroupRegistered(); ViewerGetGroupWellFormed();
        case "viewer_get_matches_from_tournament" => ViewerGetMatchesFromTournamentRegistered(); ViewerGetMatchesFromTournamentWellFormed();
        case "viewer_get_match" => ViewerGetMatchRegistered(); ViewerGetMatchWellFormed();
        case "viewer_get_matches_from_discipline" => ViewerGetMatchesFromDisciplineRegistered(); ViewerGetMatchesFromDisciplineWellFormed();
        case "viewer_get_game" => ViewerGetGameRegistered(); ViewerGetGameWellFormed();
        case "viewer_get_participants" => ViewerGetParticipantsRegistered(); ViewerGetParticipantsWellFormed();
        case "viewer_get_participant" => ViewerGetParticipantRegistered(); ViewerGetParticipantWellFormed();
        case "viewer_get_playlist" => ViewerGetPlaylistRegistered(); ViewerGetPlaylistWellFormed();
        case "viewer_get_ranking_items" => ViewerGetRankingItemsRegistered(); ViewerGetRankingItemsWellFormed();
        case "viewer_get_rounds" => ViewerGetRoundsRegistered(); ViewerGetRoundsWellFormed();
        case "viewer_get_round" => ViewerGetRoundRegistered(); ViewerGetRoundWellFormed();
        case "viewer_get_stages" => ViewerGetStagesRegistered(); ViewerGetStagesWellFormed();
        case "viewer_get_stage" => ViewerGetStageRegistered(); ViewerGetStageWellFormed();
        case "viewer_get_standings" => ViewerGetStandingsRegistered(); ViewerGetStandingsWellFormed();
        case "viewer_get_streams" => ViewerGetStreamsRegistered(); ViewerGetStreamsWellFormed();
        case "viewer_get_tournaments_featured" => ViewerGetTournamentsFeaturedRegistered(); ViewerGetTournamentsFeaturedWellFormed();
        case "viewer_get_tournament" => ViewerGetTournamentRegistered(); ViewerGetTournamentWellFormed();
        case "viewer_get_tournaments_by_playlist" => ViewerGetTournamentsByPlaylistRegistered(); ViewerGetTournamentsByPlaylistWellFormed();
        case "viewer_get_videos" => ViewerGetVideosRegistered(); ViewerGetVideosWellFormed();
        case "viewer_get_videos_by_match" => ViewerGetVideosByMatchRegistered(); ViewerGetVideosByMatchWellFormed();
        case _ =>
    }
  }

  /** The only query parameter of the registry that must be given is the
      list `tournament_ids` of `viewer_get_standings`. */
  lemma OnlyStandingsRequiresAQuery()
    ensures forall name, n | Functions(name).Some? && n in RequiredQuery(Functions(name).value) ::
              Functions(name) == Some(ViewerGetStandings) && n == "tournament_ids"
  {
    forall name, n | Functions(name).Some? && n in RequiredQuery(Functions(name).value)
      ensures Functions(name) == Some(ViewerGetStandings) && n == "tournament_ids"
    {
      match name
        case "viewer_get_bracket_nodes" => ViewerGetBracketNodesRequiredQuery();
        case "viewer_get_custom_fields" => ViewerGetCustomFieldsRequiredQuery();
        case "viewer_get_disciplines" => ViewerGetDisciplinesRequiredQuery();
        case "viewer_get_discipline" => ViewerGetDisciplineRequiredQuery();
        case "viewer_get_groups" => ViewerGetGroupsRequiredQuery();
        case "viewer_get_group" => ViewerGetGroupRequiredQuery();
        case "viewer_get_matches_from_tournament" => ViewerGetMatchesFromTournamentRequiredQuery();
        case "viewer_get_match" => ViewerGetMatchRequiredQuery();
        case "viewer_get_matches_from_discipline" => ViewerGetMatchesFromDisciplineRequiredQuery();
        case "viewer_get_game" => ViewerGetGameRequiredQuery();
        case "viewer_get_participants" => ViewerGetParticipantsRequiredQuery();
        case "viewer_get_participant" => ViewerGetParticipantRequiredQuery();
        case "viewer_get_playlist" => ViewerGetPlaylistRequiredQuery();
        case "viewer_get_ranking_items" => ViewerGetRankingItemsRequiredQuery();
        case "viewer_get_rounds" => ViewerGetRoundsRequiredQuery();
        case "viewer_get_round" => ViewerGetRoundRequiredQuery();
        case "viewer_get_stages" => ViewerGetStagesRequiredQuery();
        case "viewer_get_stage" => ViewerGetStageRequiredQuery();
        case "viewer_get_standings" => ViewerGetStandingsRequiredQuery();
        case "viewer_get_streams" => ViewerGetStreamsRequiredQuery();
        case "viewer_get_tournaments_featured" => ViewerGetTournamentsFeaturedRequiredQuery();
        case "viewer_get_tournament" => ViewerGetTournamentRequiredQuery();
        case "viewer_get_tournaments_by_playlist" => ViewerGetTournamentsByPlaylistRequiredQuery();
        case "viewer_get_videos" => ViewerGetVideosRequiredQuery();
        case "viewer_get_videos_by_match" => ViewerGetVideosByMatchRequiredQuery();
        case _ =>
    }
  }

  /** The keys of the dictionary. */
  const NAMES: set<string> := {"viewer_get_bracket_nodes", "viewer_get_custom_fields", "viewer_get_disciplines", "viewer_get_discipline", "viewer_get_groups", "viewer_get_group", "viewer_get_matches_from_tournament", "viewer_get_match", "viewer_get_matches_from_discipline", "viewer_get_game", "viewer_get_participants", "viewer_get_participant", "viewer_get_playlist", "viewer_get_ranking_items", "viewer_get_rounds", "viewer_get_round", "viewer_get_stages", "viewer_get_stage", "viewer_get_standings", "viewer_get_streams", "viewer_get_tournaments_featured", "viewer_get_tournament", "viewer_get_tournaments_by_playlist", "viewer_get_videos", "viewer_get_videos_by_match"}

  lemma RegisteredNames()
    ensures forall name :: Functions(name).Some? <==> name in NAMES
  {
  }

  /** No parameter of the registry goes to the JSON body. */
  lemma NoJsonParameters()
    ensures forall name, n | Functions(name).Some? && n in Functions(name).value.parameters ::
              Functions(name).value.parameters[n].kind != JSON
  {
    RegistryWellFormed();
  }

  /** In a well-formed entry the path parameters are exactly the
      replacement fields of the path. */
  lemma PathParamsAreTemplateFields(ep: Endpoint)
    requires WellFormedEndpoint(ep)
    ensures NamesOfKind(ep, PATH) == Names(ep.path)
  {
    forall n | n in Names(ep.path) ensures n in NamesOfKind(ep, PATH) {
      var s :| s in ep.path.segments && s.field == n;
    }
  }
}
