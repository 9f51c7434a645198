/** How a submission built by the form travels through the relay: the body
    crosses the wire as JSON, the path reaches the route the form chose, and
    the relay issues that route's mutation with the form's discount input. */
module EndToEnd {
  import opened Wrappers
  import opened JsValues
  import opened DiscountCodeApi
  import opened VolumeForm

  /** With a session, a submission the form builds makes the relay issue the
      mutation of the same kind (create or update, code or automatic). A
      create's variables are `{discount}` holding the whole body; an update's
      are the discount input and the volume's own id, both as they arrive
      off the wire. */
  lemma {:induction false} SubmissionReachesMutation(
    isEdit: bool, volume: Js, form: Form, serialise: (Js, Js) -> string,
    session: Session, platform: Request -> Js)
    requires BuildRequest(isEdit, volume, form, serialise).Ok?
    ensures
      var s := BuildRequest(isEdit, volume, form, serialise).value;
      var sent := Wire(s.body);
      var vars :=
        if isEdit then Obj(map["discount" := Wire(DiscountInput(s)), "id" := Wire(OptProp(volume, "id"))])
        else Obj(map["discount" := sent]);
      var req := Request(None, RouteMutation(s.route), vars);
      && RouteOf(Path(s.route)) == Some(s.route)
      && (RouteMutation(s.route) in {UpdateCodeMutation, UpdateAutomaticMutation} <==> isEdit)
      && (RouteMutation(s.route) in {CreateCodeMutation, UpdateCodeMutation} <==>
            form.discountMethod != MethodAutomatic)
      && HandlePost(s.route, Some(session), platform, sent) ==
           [Issue(Client(session.shop, session.accessToken), req), Reply(200, platform(req))]
  {
    var s := BuildRequest(isEdit, volume, form, serialise).value;
    RouteOfPath(s.route);
    RouteMutationFaithful(s.route, s.route);
    if isEdit {
      UpdateReferencesMetafield(volume, form, serialise);
      var m := s.body.fields;
      WireProp(m, "data");
      WireProp(m, "id");
    }
  }
}
